// Two processes going round the ring under sorted queues: which of them can get ahead of the other.
module Pairwise {
  import opened QueueSpec

  // ----- The order in which two processes can finish their bursts -----

  /** Before its first burst the smaller key goes first, and between equal keys the one that arrived first. */
  predicate Leads(x: seq<int>, y: seq<int>, first: bool)
    requires x != [] && y != []
  {
    x[0] < y[0] || (x[0] == y[0] && first)
  }

  /** Two processes queue with the keys x[0], x[1], ... and y[0], y[1], .... This says whether they can
      stand before their bursts a and b when the second (or else the first) was the last of the two to
      finish one. Taking turns is always possible; to go twice in a row a process needs a key strictly
      below the other's. */
  predicate Meets(x: seq<int>, y: seq<int>, first: bool, a: nat, b: nat, second: bool)
    requires a < |x| && b < |y|
    decreases a + b
  {
    if a == 0 && b == 0 then second == Leads(x, y, first)
    else if second then
      b > 0 && (Meets(x, y, first, a, b - 1, false) || (Meets(x, y, first, a, b - 1, true) && y[b - 1] < x[a]))
    else
      a > 0 && (Meets(x, y, first, a - 1, b, true) || (Meets(x, y, first, a - 1, b, false) && x[a - 1] < y[b]))
  }

  /** The two processes change places. */
  lemma {:induction false} MeetsTurned(x: seq<int>, y: seq<int>, first: bool, a: nat, b: nat, second: bool)
    requires a < |x| && b < |y|
    ensures Meets(x, y, first, a, b, second) == Meets(y, x, !first, b, a, !second)
    decreases a + b
  {
    if second && b > 0 {
      MeetsTurned(x, y, first, a, b - 1, false);
      MeetsTurned(x, y, first, a, b - 1, true);
    }
    if !second && a > 0 {
      MeetsTurned(x, y, first, a - 1, b, true);
      MeetsTurned(x, y, first, a - 1, b, false);
    }
  }

  predicate Constant(x: seq<int>) {
    forall i | 0 <= i < |x| :: x[i] == x[0]
  }

  /** With constant keys a smaller one is never overtaken, and equal ones take turns. */
  lemma {:induction false} MeetsConstant(x: seq<int>, y: seq<int>, first: bool, a: nat, b: nat)
    requires a < |x| && b < |y| && Constant(x) && Constant(y)
    ensures x[0] < y[0] ==> (Meets(x, y, first, a, b, true) <==> (b <= a && (b > 0 || a == 0)))
    ensures x[0] < y[0] ==> (Meets(x, y, first, a, b, false) <==> b < a)
    ensures x[0] == y[0] ==> (Meets(x, y, first, a, b, true) <==> (if first then a == b else b == a + 1))
    ensures x[0] == y[0] ==> (Meets(x, y, first, a, b, false) <==> (if first then a == b + 1 else a == b))
    decreases a + b
  {
    if a > 0 {
      MeetsConstant(x, y, first, a - 1, b);
    }
    if b > 0 {
      MeetsConstant(x, y, first, a, b - 1);
    }
  }

  // ----- The five places a live process can be in -----

  /** In the scheduler's hand before and after the burst, in the wakeup thread's hand, or in a queue. */
  datatype Ring = Ring(before: seq<nat>, ready: seq<Node>, waking: seq<nat>, wait: seq<Node>, after: seq<nat>)
  {
    function Held(): multiset<nat> {
      multiset(before) + multiset(Pids(ready)) + multiset(waking) + multiset(Pids(wait)) + multiset(after)
    }

    /** No process is in two places. */
    ghost predicate Distinct() {
      && |before| <= 1 && |waking| <= 1 && |after| <= 1
      && forall p: nat :: Held()[p] <= 1
    }

    /** How far round the ring from the wait queue's door a process is. */
    function Stage(p: nat): nat {
      if after == [p] then 0 else if Has(wait, p) then 1 else if waking == [p] then 2
      else if before == [p] then 4 else 3
    }
  }

  predicate Has(q: seq<Node>, p: nat) {
    exists i | 0 <= i < |q| :: q[i].pid == p
  }

  /** y never stands before x in the queue. */
  predicate Trails(q: seq<Node>, y: nat, x: nat) {
    forall i, j | 0 <= i < j < |q| :: !(q[i].pid == y && q[j].pid == x)
  }

  predicate NotAhead(r: Ring, y: nat, x: nat) {
    r.Stage(y) <= r.Stage(x) && Trails(r.ready, y, x) && Trails(r.wait, y, x)
  }

  /** What a step can do to the ring. */
  datatype Move =
    | Stay | TakeReady | Close | PutWait(key: int) | TakeWait | PutReady(key: int) | Requeue(key: int)
    | DropBefore | DropWaking

  predicate Possible(r: Ring, m: Move) {
    match m
    case Stay => true
    case TakeReady => r.before == [] && r.ready != []
    case Close => r.before != [] && r.after == []
    case PutWait(_) => r.after != []
    case TakeWait => r.waking == [] && r.wait != []
    case PutReady(_) => r.waking != []
    case Requeue(_) => r.before != []
    case DropBefore => r.before != []
    case DropWaking => r.waking != []
  }

  function Apply(r: Ring, m: Move): Ring
    requires Possible(r, m)
  {
    match m
    case Stay => r
    case TakeReady => r.(before := [r.ready[0].pid], ready := r.ready[1..])
    case Close => r.(before := [], after := r.before)
    case PutWait(k) => r.(after := [], wait := Insert(r.wait, Node(r.after[0], k)))
    case TakeWait => r.(waking := [r.wait[0].pid], wait := r.wait[1..])
    case PutReady(k) => r.(waking := [], ready := Insert(r.ready, Node(r.waking[0], k)))
    case Requeue(k) => r.(before := [], ready := Insert(r.ready, Node(r.before[0], k)))
    case DropBefore => r.(before := [])
    case DropWaking => r.(waking := [])
  }

  // ----- Queues -----

  lemma HasIn(q: seq<Node>, p: nat)
    ensures Has(q, p) <==> multiset(Pids(q))[p] >= 1
  {
    if Has(q, p) {
      var i :| 0 <= i < |q| && q[i].pid == p;
      assert Pids(q)[i] in multiset(Pids(q));
    }
    if multiset(Pids(q))[p] >= 1 {
      assert p in Pids(q);
      var i :| 0 <= i < |q| && Pids(q)[i] == p;
      assert q[i].pid == p;
    }
  }

  lemma TrailsTail(q: seq<Node>, y: nat, x: nat)
    requires q != [] && Trails(q, y, x)
    ensures Trails(q[1..], y, x)
  {
    var t := q[1..];
    forall i, j | 0 <= i < j < |t| ensures !(t[i].pid == y && t[j].pid == x) {
      assert t[i] == q[i + 1] && t[j] == q[j + 1];
    }
  }

  lemma InsertAt(q: seq<Node>, node: Node, j: nat)
    requires j <= |q|
    ensures var k := Slot(q, node.key);
            Insert(q, node)[j] == if j < k then q[j] else if j == k then node else q[j - 1]
  {
  }

  /** In a sorted queue the keys from the slot on are larger. */
  lemma BeyondSlot(q: seq<Node>, key: int, j: nat)
    requires Sorted(q) && Slot(q, key) <= j < |q|
    ensures q[j].key > key
  {
    var k := Slot(q, key);
    if k < j {
      assert q[k].key <= q[j].key;
    }
  }

  /** Insertion keeps y behind x, wherever the node is put, if the node is neither or stands right. */
  lemma TrailsInsert(q: seq<Node>, node: Node, y: nat, x: nat)
    requires Trails(q, y, x) && x != y && Sorted(q)
    requires node.pid == y ==> forall i | 0 <= i < |q| && q[i].pid == x :: q[i].key <= node.key
    requires node.pid == x ==> forall i | 0 <= i < |q| && q[i].pid == y :: q[i].key > node.key
    ensures Trails(Insert(q, node), y, x)
  {
    hide Sorted, Insert;
    var k, t := Slot(q, node.key), Insert(q, node);
    hide Slot;
    forall i, j | 0 <= i < j < |t| ensures !(t[i].pid == y && t[j].pid == x) {
      InsertAt(q, node, i);
      InsertAt(q, node, j);
      if i == k {
        BeyondSlot(q, node.key, j - 1);
      }
    }
  }

  lemma HasInsert(q: seq<Node>, node: Node, p: nat)
    ensures Has(Insert(q, node), p) <==> Has(q, p) || p == node.pid
  {
    HasIn(q, p);
    HasIn(Insert(q, node), p);
    InsertMembers(q, node);
  }

  lemma HasTail(q: seq<Node>, p: nat)
    requires q != [] && multiset(Pids(q))[p] <= 1
    ensures Has(q[1..], p) <==> Has(q, p) && q[0].pid != p
  {
    HasIn(q, p);
    HasIn(q[1..], p);
    DequeueMembers(q);
  }

  // ----- Who stays behind whom -----

  /** A process that is in no place but one: what the others hold. */
  lemma OnlyPlace(r: Ring, p: nat)
    requires r.Distinct()
    ensures r.before == [p] ==> !Has(r.ready, p) && !Has(r.wait, p) && r.waking != [p] && r.after != [p]
    ensures Has(r.ready, p) ==> r.before != [p] && !Has(r.wait, p) && r.waking != [p] && r.after != [p]
    ensures r.waking == [p] ==> !Has(r.ready, p) && !Has(r.wait, p) && r.before != [p] && r.after != [p]
    ensures Has(r.wait, p) ==> !Has(r.ready, p) && r.waking != [p] && r.before != [p] && r.after != [p]
    ensures r.after == [p] ==> !Has(r.ready, p) && !Has(r.wait, p) && r.waking != [p] && r.before != [p]
    ensures multiset(Pids(r.ready))[p] <= 1 && multiset(Pids(r.wait))[p] <= 1
  {
    HasIn(r.ready, p);
    HasIn(r.wait, p);
    assert r.Held()[p] <= 1;
    assert multiset([p])[p] == 1;
  }

  /** The keys that decide when one of the two is put into a queue: y is never put before x. */
  predicate PutsRight(r: Ring, m: Move, y: nat, x: nat) {
    match m
    case PutWait(k) => r.after == [y] ==> forall i | 0 <= i < |r.wait| && r.wait[i].pid == x :: r.wait[i].key <= k
    case PutReady(k) => r.waking == [y] ==> forall i | 0 <= i < |r.ready| && r.ready[i].pid == x :: r.ready[i].key <= k
    case Requeue(k) => r.before == [x] ==> forall i | 0 <= i < |r.ready| && r.ready[i].pid == y :: r.ready[i].key > k
    case _ => true
  }

  /** Both processes stay on the ring, and neither finishes its burst in this move. */
  predicate BothStay(r: Ring, m: Move, y: nat, x: nat) {
    && r.Held()[x] == 1 && r.Held()[y] == 1
    && (m.Close? || m.DropBefore? ==> r.before != [x] && r.before != [y])
    && (m.DropWaking? ==> r.waking != [x] && r.waking != [y])
  }

  /** Nobody gets ahead except by closing a burst or by being queued in front. */
  lemma StaysBehind(r: Ring, m: Move, y: nat, x: nat)
    requires r.Distinct() && Possible(r, m) && x != y && NotAhead(r, y, x)
    requires Sorted(r.ready) && Sorted(r.wait) && BothStay(r, m, y, x) && PutsRight(r, m, y, x)
    ensures NotAhead(Apply(r, m), y, x)
  {
    OnlyPlace(r, x);
    OnlyPlace(r, y);
    HasIn(r.ready, x);
    HasIn(r.ready, y);
    HasIn(r.wait, x);
    HasIn(r.wait, y);
    hide Trails, Has, Insert, Sorted;
    match m {
      case TakeReady => BehindAtHead(r, y, x);
      case TakeWait => BehindAtWait(r, y, x);
      case PutWait(k) => BehindPutWait(r, k, y, x);
      case PutReady(k) => BehindPutReady(r, k, y, x);
      case Requeue(k) => BehindRequeue(r, k, y, x);
      case _ =>
    }
  }

  lemma NeverFirst(q: seq<Node>, y: nat, x: nat)
    requires q != [] && Trails(q, y, x) && q[0].pid == y && x != y
    ensures !Has(q, x)
  {
  }

  lemma BehindAtHead(r: Ring, y: nat, x: nat)
    requires r.Distinct() && Possible(r, TakeReady) && x != y && NotAhead(r, y, x)
    requires r.Held()[x] == 1 && r.Held()[y] == 1
    ensures NotAhead(Apply(r, TakeReady), y, x)
  {
    OnlyPlace(r, x);
    OnlyPlace(r, y);
    HasIn(r.ready, x);
    HasIn(r.ready, y);
    HasIn(r.wait, x);
    HasTail(r.ready, x);
    HasTail(r.ready, y);
    TrailsTail(r.ready, y, x);
    assert multiset(r.before)[x] == 0;
    assert multiset(r.waking)[x] == (if r.waking == [x] then 1 else 0);
    assert multiset(r.after)[x] == (if r.after == [x] then 1 else 0);
    if r.ready[0].pid == y {
      NeverFirst(r.ready, y, x);
    }
    hide Trails, Has;
  }

  lemma BehindAtWait(r: Ring, y: nat, x: nat)
    requires r.Distinct() && Possible(r, TakeWait) && x != y && NotAhead(r, y, x)
    requires r.Held()[x] == 1 && r.Held()[y] == 1
    ensures NotAhead(Apply(r, TakeWait), y, x)
  {
    OnlyPlace(r, x);
    OnlyPlace(r, y);
    HasTail(r.wait, x);
    HasTail(r.wait, y);
    TrailsTail(r.wait, y, x);
    if r.wait[0].pid == y {
      NeverFirst(r.wait, y, x);
    }
    hide Trails, Has;
  }

  lemma BehindPutWait(r: Ring, k: int, y: nat, x: nat)
    requires r.Distinct() && Possible(r, PutWait(k)) && x != y && NotAhead(r, y, x)
    requires Sorted(r.wait) && PutsRight(r, PutWait(k), y, x)
    requires r.Held()[x] == 1 && r.Held()[y] == 1
    ensures NotAhead(Apply(r, PutWait(k)), y, x)
  {
    OnlyPlace(r, x);
    OnlyPlace(r, y);
    var node := Node(r.after[0], k);
    assert r.after == [node.pid];
    HasInsert(r.wait, node, x);
    HasInsert(r.wait, node, y);
    hide Sorted, Insert;
    if node.pid != x {
      TrailsInsert(r.wait, node, y, x);
    }
    hide Trails, Has;
  }

  lemma BehindPutReady(r: Ring, k: int, y: nat, x: nat)
    requires r.Distinct() && Possible(r, PutReady(k)) && x != y && NotAhead(r, y, x)
    requires Sorted(r.ready) && PutsRight(r, PutReady(k), y, x)
    requires r.Held()[x] == 1 && r.Held()[y] == 1
    ensures NotAhead(Apply(r, PutReady(k)), y, x)
  {
    OnlyPlace(r, x);
    OnlyPlace(r, y);
    var node := Node(r.waking[0], k);
    assert r.waking == [node.pid];
    HasInsert(r.ready, node, x);
    HasInsert(r.ready, node, y);
    hide Sorted, Insert;
    if node.pid == x {
      assert forall i | 0 <= i < |r.ready| :: r.ready[i].pid != y;
    }
    TrailsInsert(r.ready, node, y, x);
    hide Trails, Has;
  }

  lemma BehindRequeue(r: Ring, k: int, y: nat, x: nat)
    requires r.Distinct() && Possible(r, Requeue(k)) && x != y && NotAhead(r, y, x)
    requires Sorted(r.ready) && PutsRight(r, Requeue(k), y, x)
    requires r.Held()[x] == 1 && r.Held()[y] == 1
    ensures NotAhead(Apply(r, Requeue(k)), y, x)
  {
    OnlyPlace(r, x);
    OnlyPlace(r, y);
    var node := Node(r.before[0], k);
    assert r.before == [node.pid];
    HasInsert(r.ready, node, x);
    HasInsert(r.ready, node, y);
    hide Sorted, Insert;
    TrailsInsert(r.ready, node, y, x);
    hide Trails, Has;
  }
}
