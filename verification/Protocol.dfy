// The two-thread protocol as a state machine. A step of a thread is one operation on
// shared state (atomic counter, semaphore, mutex section, log line) followed by the
// local code up to the next such operation. All four policies share the skeleton.
module Protocol {
  import opened Workload
  import opened QueueSpec

  /** Srtf(false) is the program as written, where a preempted burst starts over;
      Srtf(true) is the corrected variant that runs for the remaining time. */
  datatype Policy = Fcfs | Sjf | Srtf(resume: bool) | Rr(quantum: int)
  {
    predicate Keyed() { Sjf? || Srtf? }
    predicate Ticking() { Srtf? || Rr? }
  }

  datatype Status = New | Ready | Sleep | Running | Terminated | Undefined

  /** What one finished CPU burst was charged. */
  datatype Charge = Charge(ticks: int, preemptions: nat, lastRemaining: int)

  /** History variables: they record the run and never influence it. */
  datatype History = History(handled: nat, burst: Charge, done: seq<Charge>)

  const NO_CHARGE := Charge(0, 0, 0)

  datatype Proc = Proc(
    line: Line, priority: int, remaining: int, cpuIndex: nat, ioIndex: nat, status: Status,
    cpuTime: int, ioTime: int, processTime: int, turnaround: int, h: History)

  const NOBODY := Proc(Line(0, [], []), 0, 0, 0, 0, Undefined, 0, 0, 0, 0, History(0, NO_CHARGE, []))

  datatype Entry = Entry(pid: nat, cpuIndex: nat, start: int, end: int)

  /** Where the scheduler thread stands; the argument is the process it works on. */
  datatype SPc =
    | SCheck | SDone1 | SDone2 | SDone3 | STry | SDeq
    | STermAdd(pid: nat) | STermWrite(pid: nat)
    | SStart(pid: nat) | SAdd(pid: nat) | SEnd(pid: nat)
    | STick(pid: nat, time: int, procTime: int) | STest(pid: nat, time: int, procTime: int)
    | SSwapEnd(pid: nat) | SSwapPut(pid: nat) | SSwapPost(pid: nat) | SSwapDeq(pid: nat)
    | SPut(pid: nat) | SPost(pid: nat) | SLog(pid: nat)
    | SExit | SFault

  /** Where the wakeup thread stands. */
  datatype WPc =
    | WCheck | WTry | WDeq
    | WTermAdd(pid: nat) | WTermWrite(pid: nat)
    | WAdd(pid: nat) | WPut(pid: nat) | WPost
    | WExit | WFault

  /** depth counts the suspended calls below the running handler; entry is a history
      variable, the remaining time of the process the outermost call was given. */
  datatype State = State(
    procs: seq<Proc>, ready: seq<Node>, wait: seq<Node>, readyCount: int, waitCount: int,
    clock: int, terminated: int, start: int, end: int, log: seq<Entry>,
    spc: SPc, wpc: WPc, depth: nat, entry: int)

  datatype Thread = SchedulerThread | WakeupThread

  // ----- Well-formed references -----

  function SPid(pc: SPc): (r: seq<nat>) {
    match pc
    case STermAdd(p) => [p]   case STermWrite(p) => [p]
    case SStart(p) => [p]     case SAdd(p) => [p]       case SEnd(p) => [p]
    case STick(p, _, _) => [p] case STest(p, _, _) => [p]
    case SSwapEnd(p) => [p]   case SSwapPut(p) => [p]   case SSwapPost(p) => [p]
    case SSwapDeq(p) => [p]
    case SPut(p) => [p]       case SPost(p) => [p]      case SLog(p) => [p]
    case _ => []
  }

  function WPid(pc: WPc): (r: seq<nat>) {
    match pc
    case WTermAdd(p) => [p]   case WTermWrite(p) => [p]
    case WAdd(p) => [p]       case WPut(p) => [p]
    case _ => []
  }

  predicate InRange(q: seq<Node>, n: nat) {
    forall i | 0 <= i < |q| :: q[i].pid < n
  }

  /** Every reference in a queue or a thread's hand points to an existing process. */
  predicate Pointers(s: State) {
    && InRange(s.ready, |s.procs|)
    && InRange(s.wait, |s.procs|)
    && (SPid(s.spc) != [] ==> SPid(s.spc)[0] < |s.procs|)
    && (WPid(s.wpc) != [] ==> WPid(s.wpc)[0] < |s.procs|)
  }

  // ----- The process state machine -----

  predicate ShouldTerminate(p: Proc) {
    if |p.line.cpu| == 0 then true
    else if |p.line.io| == 0 then !(p.cpuIndex < |p.line.cpu|)
    else !(|| (p.cpuIndex < |p.line.cpu| && p.ioIndex <= |p.line.io|)
           || (p.cpuIndex <= |p.line.cpu| && p.ioIndex < |p.line.io|))
  }

  function Enqueue(pol: Policy, q: seq<Node>, pid: nat, key: int): seq<Node> {
    if pol.Keyed() then Insert(q, Node(pid, key)) else q + [Node(pid, 0)]
  }

  lemma EnqueueInRange(pol: Policy, q: seq<Node>, pid: nat, key: int, n: nat)
    requires InRange(q, n) && pid < n
    ensures InRange(Enqueue(pol, q, pid, key), n)
  {
    if pol.Keyed() {
      InsertMembers(q, Node(pid, key));
      forall i | 0 <= i < |Insert(q, Node(pid, key))|
        ensures Insert(q, Node(pid, key))[i].pid < n
      {
        assert Insert(q, Node(pid, key))[i] in Insert(q, Node(pid, key));
      }
    }
  }

  /** The burst a one-shot handler charges: a new process always its first. */
  function BurstIndex(p: Proc): nat {
    if p.status == New then 0 else p.cpuIndex
  }

  function Tick(p: Proc): Proc {
    p.(cpuTime := p.cpuTime + 1, processTime := p.processTime + 1, remaining := p.remaining - 1,
       h := p.h.(burst := p.h.burst.(ticks := p.h.burst.ticks + 1)))
  }

  function CloseBurst(p: Proc): Proc {
    p.(cpuIndex := p.cpuIndex + 1, h := p.h.(burst := NO_CHARGE, done := p.h.done + [p.h.burst]))
  }

  /** The end of a tick loop: next burst's length becomes the key and the remaining time. */
  function Refill(pol: Policy, p: Proc): Proc {
    var q := CloseBurst(p).(status := Sleep);
    if q.cpuIndex < |q.line.cpu| then
      var b := q.line.cpu[q.cpuIndex];
      if pol.Srtf? then q.(priority := b, remaining := b) else q.(remaining := b)
    else q
  }

  function Preempt(p: Proc): Proc {
    p.(priority := p.remaining, status := Ready,
       h := p.h.(burst := p.h.burst.(preemptions := p.h.burst.preemptions + 1, lastRemaining := p.remaining)))
  }

  function StartIo(p: Proc): Proc
    requires p.ioIndex < |p.line.io|
  {
    p.(ioTime := p.ioTime + p.line.io[p.ioIndex])
  }

  function FinishIo(p: Proc): Proc
    requires p.ioIndex < |p.line.io|
  {
    p.(processTime := p.processTime + p.line.io[p.ioIndex], ioIndex := p.ioIndex + 1, status := Ready)
  }

  function Handled(p: Proc): Proc {
    p.(h := p.h.(handled := p.h.handled + 1))
  }

  function Finish(p: Proc): Proc {
    p.(status := Terminated, turnaround := p.processTime)
  }

  /** The process a reference points to. References are always in range (see Pointers),
      so what a dangling one would yield never matters. */
  function At(s: State, pid: nat): Proc {
    if pid < |s.procs| then s.procs[pid] else NOBODY
  }

  function Replace(ps: seq<Proc>, pid: nat, p: Proc): (r: seq<Proc>)
    ensures |r| == |ps|
  {
    if pid < |ps| then ps[pid := p] else ps
  }

  function Put(s: State, pid: nat, p: Proc): State {
    s.(procs := Replace(s.procs, pid, p))
  }

  // ----- The scheduler thread -----

  /** The head of the CPU handler, up to its first shared operation. */
  function Dispatch(pol: Policy, s: State, pid: nat): State {
    var p := At(s, pid);
    if ShouldTerminate(p) then s.(spc := STermAdd(pid))
    else if p.status == New || p.status == Ready then
      if pol.Ticking() && p.status == New && p.cpuIndex != 0 then s.(spc := SFault) else s.(spc := SStart(pid))
    else if pol.Ticking() then s.(spc := SFault)
    else s.(spc := SCheck, depth := 0)
  }

  function SchedulerDequeue(pol: Policy, s: State): State {
    if s.ready == [] then s.(spc := SCheck)
    else
      var pid := s.ready[0].pid;
      var p := Handled(At(s, pid));
      Dispatch(pol, Put(s, pid, p).(ready := s.ready[1..], entry := p.remaining), pid)
  }

  function Start(pol: Policy, s: State, pid: nat): State {
    var p := At(s, pid);
    match pol
    case Rr(_) => s.(start := s.clock, spc := STick(pid, 0, p.remaining))
    case Srtf(resume) =>
      if p.cpuIndex >= |p.line.cpu| then s.(spc := SFault)
      else s.(start := s.clock, spc := STick(pid, 0, if resume then p.remaining else p.line.cpu[p.cpuIndex]))
    case _ =>
      if BurstIndex(p) >= |p.line.cpu| then s.(spc := SFault)
      else
        var b := p.line.cpu[BurstIndex(p)];
        var p' := if p.status == New then p.(cpuTime := b)
                  else p.(cpuTime := p.cpuTime + b, processTime := p.processTime + b);
        Put(s, pid, p').(start := s.clock, spc := SAdd(pid))
  }

  function Add(s: State, pid: nat): State {
    var p := At(s, pid);
    if BurstIndex(p) >= |p.line.cpu| then s.(spc := SFault)
    else
      var b := p.line.cpu[BurstIndex(p)];
      var p' := p.(h := p.h.(burst := p.h.burst.(ticks := p.h.burst.ticks + b)));
      Put(s, pid, p').(clock := s.clock + b, spc := SEnd(pid))
  }

  function End(s: State, pid: nat): State {
    var p := At(s, pid);
    if BurstIndex(p) >= |p.line.cpu| then s.(spc := SFault)
    else
      var b := p.line.cpu[BurstIndex(p)];
      var p' := if p.status == New then p.(processTime := p.processTime + b) else p;
      Put(s, pid, CloseBurst(p').(status := Sleep)).(end := s.clock, spc := SPut(pid))
  }

  function TickLoop(pol: Policy, s: State, pid: nat, time: int, procTime: int): State {
    var p := At(s, pid);
    if time < procTime && (pol.Rr? ==> time < pol.quantum) then
      Put(s, pid, Tick(p)).(clock := s.clock + 1,
        spc := if pol.Rr? then STick(pid, time + 1, procTime) else STest(pid, time + 1, procTime))
    else if pol.Rr? && time > pol.quantum then
      Put(s, pid, p.(status := Ready)).(end := s.clock, spc := SSwapPut(pid))
    else
      Put(s, pid, Refill(pol, p)).(end := s.clock, spc := SPut(pid))
  }

  /** The preemption test, made under the ready-queue mutex. */
  predicate HeadIsShorter(s: State, pid: nat)
  {
    s.ready != [] && At(s, s.ready[0].pid).remaining < At(s, pid).remaining
  }

  function SwapEnd(s: State, pid: nat): State {
    var p := At(s, pid);
    Put(s, pid, Preempt(p)).(end := s.clock, log := s.log + [Entry(pid, p.cpuIndex, s.start, s.clock)],
                             spc := SSwapPut(pid))
  }

  function SwapPut(pol: Policy, s: State, pid: nat): State {
    s.(ready := Enqueue(pol, s.ready, pid, At(s, pid).priority),
       spc := if pol.Rr? then SSwapPost(pid) else SSwapDeq(pid))
  }

  /** The dequeue inside a swap takes no semaphore token; an empty queue would be a null dereference. */
  function SwapDequeue(pol: Policy, s: State): State {
    if s.ready == [] then s.(spc := SFault)
    else
      var pid := s.ready[0].pid;
      Dispatch(pol, Put(s, pid, Handled(At(s, pid))).(ready := s.ready[1..], depth := s.depth + 1), pid)
  }

  function LogLine(s: State, pid: nat): State {
    s.(log := s.log + [Entry(pid, At(s, pid).cpuIndex, s.start, s.end)],
       spc := if s.depth > 0 then SLog(pid) else SCheck,
       depth := if s.depth > 0 then s.depth - 1 else 0)
  }

  predicate Polling(pc: SPc) {
    pc.SCheck? || pc.SDone1? || pc.SDone2? || pc.SDone3? || pc.STry?
  }

  predicate Charging(pc: SPc) {
    pc.SStart? || pc.SAdd? || pc.SEnd? || pc.STick? || pc.STest? || pc.SSwapEnd?
  }

  /** The slice is over and its log line still to be written. */
  predicate Pending(pc: SPc) {
    pc.SPut? || pc.SPost? || pc.SLog?
  }

  /** The checks at the top of the scheduler loop; all_processes_done reads its three parts one by one. */
  function Poll(s: State): State {
    match s.spc
    case SCheck => s.(spc := if s.terminated >= |s.procs| then SExit else SDone1)
    case SDone1 => s.(spc := if s.terminated >= |s.procs| then SDone2 else STry)
    case SDone2 => s.(spc := if s.ready == [] then SDone3 else STry)
    case SDone3 => s.(spc := if s.wait == [] then SExit else STry)
    case STry =>
      if s.readyCount > 0 then s.(readyCount := s.readyCount - 1, spc := SDeq) else s.(spc := SCheck)
    case _ => s
  }

  /** The part of the CPU handler that charges the burst. */
  function ChargeBurst(pol: Policy, s: State): State {
    match s.spc
    case SStart(pid) => Start(pol, s, pid)
    case SAdd(pid) => Add(s, pid)
    case SEnd(pid) => End(s, pid)
    case STick(pid, time, procTime) => TickLoop(pol, s, pid, time, procTime)
    case STest(pid, time, procTime) =>
      s.(spc := if HeadIsShorter(s, pid) then SSwapEnd(pid) else STick(pid, time, procTime))
    case SSwapEnd(pid) => SwapEnd(s, pid)
    case _ => s
  }

  /** The part of the scheduler that takes a process from a queue or gives it away. */
  function HandOver(pol: Policy, s: State): State {
    match s.spc
    case SDeq => SchedulerDequeue(pol, s)
    case STermAdd(pid) => s.(terminated := s.terminated + 1, spc := STermWrite(pid))
    case STermWrite(pid) => Put(s, pid, Finish(At(s, pid))).(spc := SCheck, depth := 0)
    case SSwapPut(pid) => SwapPut(pol, s, pid)
    case SSwapPost(pid) =>
      s.(readyCount := s.readyCount + 1, spc := SSwapDeq(pid),
         log := s.log + [Entry(pid, At(s, pid).cpuIndex, s.start, s.end)])
    case SSwapDeq(_) => SwapDequeue(pol, s)
    case SPut(pid) => s.(wait := Enqueue(pol, s.wait, pid, At(s, pid).priority), spc := SPost(pid))
    case SPost(pid) => s.(waitCount := s.waitCount + 1, spc := SLog(pid))
    case SLog(pid) => LogLine(s, pid)
    case _ => s
  }

  function SchedulerStep(pol: Policy, s: State): State {
    if Polling(s.spc) then Poll(s)
    else if Charging(s.spc) then ChargeBurst(pol, s)
    else HandOver(pol, s)
  }

  // ----- The wakeup thread -----

  function WakeupDequeue(s: State): State {
    if s.wait == [] then s.(wpc := WCheck)
    else
      var pid := s.wait[0].pid;
      var p := Handled(At(s, pid));
      var s' := Put(s, pid, p).(wait := s.wait[1..]);
      if ShouldTerminate(p) then s'.(wpc := WTermAdd(pid))
      else if p.status != Sleep then s'.(wpc := WCheck)
      else if p.ioIndex >= |p.line.io| then s'.(wpc := WFault)
      else Put(s', pid, StartIo(p)).(wpc := WAdd(pid))
  }

  function WakeupAdd(s: State, pid: nat): State {
    var p := At(s, pid);
    if p.ioIndex >= |p.line.io| then s.(wpc := WFault)
    else Put(s, pid, FinishIo(p)).(clock := s.clock + p.line.io[p.ioIndex], wpc := WPut(pid))
  }

  function WakeupStep(pol: Policy, s: State): State {
    match s.wpc
    case WCheck => s.(wpc := if s.terminated < |s.procs| then WTry else WExit)
    case WTry =>
      if s.waitCount > 0 then s.(waitCount := s.waitCount - 1, wpc := WDeq) else s.(wpc := WCheck)
    case WDeq => WakeupDequeue(s)
    case WTermAdd(pid) => s.(terminated := s.terminated + 1, wpc := WTermWrite(pid))
    case WTermWrite(pid) => Put(s, pid, Finish(At(s, pid))).(wpc := WCheck)
    case WAdd(pid) => WakeupAdd(s, pid)
    case WPut(pid) =>
      s.(ready := Enqueue(pol, s.ready, pid, At(s, pid).priority), wpc := WPost)
    case WPost => s.(readyCount := s.readyCount + 1, wpc := WCheck)
    case WExit => s
    case WFault => s
  }

  // ----- Runs: a schedule says which thread takes each step -----

  function Step(pol: Policy, t: Thread, s: State): State {
    if t == SchedulerThread then SchedulerStep(pol, s) else WakeupStep(pol, s)
  }

  function Exec(pol: Policy, s: State, schedule: seq<Thread>): State {
    if schedule == [] then s
    else
      var n := |schedule| - 1;
      Step(pol, schedule[n], Exec(pol, s, schedule[..n]))
  }

  lemma ExecSnoc(pol: Policy, s: State, schedule: seq<Thread>, t: Thread)
    ensures Exec(pol, s, schedule + [t]) == Step(pol, t, Exec(pol, s, schedule))
  {
    assert (schedule + [t])[..|schedule|] == schedule;
  }

  lemma {:induction false} ExecAppend(pol: Policy, s: State, a: seq<Thread>, b: seq<Thread>)
    ensures Exec(pol, s, a + b) == Exec(pol, Exec(pol, s, a), b)
    decreases |b|
  {
    hide Step;
    if b == [] {
      assert a + b == a;
    } else {
      var n := |b| - 1;
      ExecAppend(pol, s, a, b[..n]);
      ExecSnoc(pol, s, a + b[..n], b[n]);
      assert a + b == a + b[..n] + [b[n]];
    }
  }

  // ----- The state after the arrival phase -----

  /** The keys read the first burst, so keyed and ticking policies need one in every line. */
  predicate Admissible(pol: Policy, w: seq<Line>) {
    && AllWellFormed(w)
    && |w| >= 1
    && (pol != Fcfs ==> forall i | 0 <= i < |w| :: |w[i].cpu| >= 1)
  }

  function NewProc(pol: Policy, l: Line): Proc
    requires pol != Fcfs ==> |l.cpu| >= 1
  {
    var first := if pol == Fcfs then 0 else l.cpu[0];
    Proc(l, if pol.Keyed() then first else 0, if pol.Ticking() then first else 0,
         0, 0, New, 0, 0, 0, 0, History(0, NO_CHARGE, []))
  }

  function NewProcs(pol: Policy, w: seq<Line>): (ps: seq<Proc>)
    requires Admissible(pol, w)
    ensures |ps| == |w|
  {
    seq(|w|, i requires 0 <= i < |w| => NewProc(pol, w[i]))
  }

  /** The ready queue after the first k processes were admitted in order. */
  function Arrived(pol: Policy, ps: seq<Proc>, k: nat): (q: seq<Node>)
    requires k <= |ps|
    ensures |q| == k && InRange(q, |ps|)
  {
    if k == 0 then []
    else
      EnqueueInRange(pol, Arrived(pol, ps, k - 1), k - 1, ps[k - 1].priority, |ps|);
      Enqueue(pol, Arrived(pol, ps, k - 1), k - 1, ps[k - 1].priority)
  }

  function Init(pol: Policy, w: seq<Line>, clock: int): State
    requires Admissible(pol, w)
  {
    var ps := NewProcs(pol, w);
    State(ps, Arrived(pol, ps, |ps|), [], |ps|, 0, clock, 0, 0, 0, [], SCheck, WCheck, 0, 0)
  }

  /** The state a schedule leads to from the end of the arrival phase. */
  function Run(pol: Policy, w: seq<Line>, clock: int, schedule: seq<Thread>): State
    requires Admissible(pol, w)
  {
    Exec(pol, Init(pol, w, clock), schedule)
  }

  /** Both thread loops have ended and the threads can be joined. */
  predicate Joined(s: State) {
    s.spc == SExit && s.wpc == WExit
  }
}
