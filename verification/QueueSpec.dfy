// What the two queue kinds mean: a sequence of nodes, front first.
module QueueSpec {

  /** A queue node: the process it points to and the key stored at insertion. */
  datatype Node = Node(pid: nat, key: int)

  /** How many nodes the insertion walk passes: it stops at the first larger key. */
  function Slot(q: seq<Node>, key: int): (k: nat)
    ensures k <= |q|
    ensures forall i | 0 <= i < k :: q[i].key <= key
    ensures k < |q| ==> q[k].key > key
  {
    if q == [] || q[0].key > key then 0 else 1 + Slot(q[1..], key)
  }

  function Insert(q: seq<Node>, x: Node): (r: seq<Node>)
    ensures |r| == |q| + 1
  {
    var k := Slot(q, x.key);
    q[..k] + [x] + q[k..]
  }

  predicate Sorted(q: seq<Node>) {
    forall i, j | 0 <= i < j < |q| :: q[i].key <= q[j].key
  }

  function Pids(q: seq<Node>): (r: seq<nat>)
    ensures |r| == |q|
  {
    seq(|q|, i requires 0 <= i < |q| => q[i].pid)
  }

  lemma InsertKeepsSorted(q: seq<Node>, x: Node)
    requires Sorted(q)
    ensures Sorted(Insert(q, x))
  {
    var k := Slot(q, x.key);
    forall i, j | 0 <= i < j < |q| + 1
      ensures Insert(q, x)[i].key <= Insert(q, x)[j].key
    {
      if i == k && j > k {
        assert q[k].key <= q[j - 1].key;
      }
    }
  }

  /** The members of the queue after an insertion are the old ones and the new one. */
  lemma InsertMembers(q: seq<Node>, x: Node)
    ensures multiset(Insert(q, x)) == multiset(q) + multiset{x}
    ensures multiset(Pids(Insert(q, x))) == multiset(Pids(q)) + multiset{x.pid}
    ensures forall y :: y in Insert(q, x) <==> y == x || y in q
  {
    var k := Slot(q, x.key);
    assert q == q[..k] + q[k..];
    assert Pids(q) == Pids(q[..k]) + Pids(q[k..]);
    assert Pids(Insert(q, x)) == Pids(q[..k]) + [x.pid] + Pids(q[k..]);
    assert forall y :: y in Insert(q, x) <==> y in q[..k] || y == x || y in q[k..];
  }

  /** Insertion never raises the front key, and the front changes only to a smaller key. */
  lemma InsertFront(q: seq<Node>, x: Node)
    requires q != []
    ensures Insert(q, x)[0] == (if q[0].key > x.key then x else q[0])
  {
  }

  lemma DequeueMembers(q: seq<Node>)
    requires q != []
    ensures multiset(Pids(q)) == multiset{q[0].pid} + multiset(Pids(q[1..]))
    ensures Pids(q) == [q[0].pid] + Pids(q[1..])
  {
    assert Pids(q) == [q[0].pid] + Pids(q[1..]);
  }

  lemma AppendMembers(q: seq<Node>, x: Node)
    ensures multiset(Pids(q + [x])) == multiset(Pids(q)) + multiset{x.pid}
    ensures Pids(q + [x]) == Pids(q) + [x.pid]
  {
    assert Pids(q + [x]) == Pids(q) + [x.pid];
  }

  // ----- The dispatch rule: earliest-enqueued among minimal keys -----

  datatype Op = Arrive(node: Node) | Serve

  /** The index of the earliest node of minimal key in a list kept in order of arrival. */
  function EarliestMin(pending: seq<Node>): (k: nat)
    requires pending != []
    ensures k < |pending|
    ensures forall i | 0 <= i < |pending| :: pending[k].key <= pending[i].key
    ensures forall i | 0 <= i < k :: pending[k].key < pending[i].key
  {
    var n := |pending| - 1;
    if n == 0 then 0
    else
      var k := EarliestMin(pending[..n]);
      if pending[n].key < pending[k].key then n else k
  }

  function Remove(pending: seq<Node>, k: nat): seq<Node>
    requires k < |pending|
  {
    pending[..k] + pending[k + 1..]
  }

  /** The reference scheduler: keep arrivals in order and search on every dequeue. */
  function Reference(pending: seq<Node>, ops: seq<Op>): seq<Node>
    decreases |ops|
  {
    if ops == [] then []
    else match ops[0]
      case Arrive(x) => Reference(pending + [x], ops[1..])
      case Serve =>
        if pending == [] then Reference([], ops[1..])
        else
          var k := EarliestMin(pending);
          [pending[k]] + Reference(Remove(pending, k), ops[1..])
  }

  /** The program's queue: keep it sorted on insertion and dequeue the front. */
  function Served(q: seq<Node>, ops: seq<Op>): seq<Node>
    decreases |ops|
  {
    if ops == [] then []
    else match ops[0]
      case Arrive(x) => Served(Insert(q, x), ops[1..])
      case Serve =>
        if q == [] then Served([], ops[1..])
        else [q[0]] + Served(q[1..], ops[1..])
  }

  /** The queue built by inserting nodes in order of arrival. */
  function StableSort(pending: seq<Node>): (q: seq<Node>)
    ensures |q| == |pending|
  {
    if pending == [] then [] else Insert(StableSort(pending[..|pending| - 1]), pending[|pending| - 1])
  }

  lemma InsertAfterFront(front: Node, q: seq<Node>, x: Node)
    requires front.key <= x.key
    ensures Insert([front] + q, x) == [front] + Insert(q, x)
  {
    var p, k := [front] + q, Slot(q, x.key);
    assert Slot(p, x.key) == 1 + k by {
      assert p[0] == front && p[1..] == q;
    }
    assert p[..k + 1] == [front] + q[..k];
    assert p[k + 1..] == q[k..];
    assert [front] + q[..k] + [x] + q[k..] == [front] + (q[..k] + [x] + q[k..]);
  }

  lemma RemoveBeforeLast(rest: seq<Node>, j: nat, x: Node)
    requires j < |rest|
    ensures StableSort(Remove(rest + [x], j)) == Insert(StableSort(Remove(rest, j)), x)
  {
    var r := Remove(rest + [x], j);
    assert r[..|r| - 1] == Remove(rest, j) && r[|r| - 1] == x;
  }

  /** The front of the sorted queue is the earliest minimum, and the rest is the others' queue. */
  predicate FrontIsMin(pending: seq<Node>) {
    pending != [] ==>
      var k := EarliestMin(pending);
      StableSort(pending) == [pending[k]] + StableSort(Remove(pending, k))
  }

  lemma {:induction false} FrontIsEarliestMin(pending: seq<Node>)
    ensures FrontIsMin(pending)
  {
    if |pending| >= 2 {
      hide FrontIsMin;
      var rest, x := pending[..|pending| - 1], pending[|pending| - 1];
      FrontIsEarliestMin(rest);
      FrontStep(rest, x);
      Whole(pending);
    } else if |pending| == 1 {
      FrontOfOne(pending);
    }
  }

  lemma FrontOfOne(pending: seq<Node>)
    requires |pending| == 1
    ensures EarliestMin(pending) == 0
    ensures StableSort(pending) == [pending[0]] + StableSort(Remove(pending, 0))
  {
    hide Insert;
    assert Remove(pending, 0) == [] && pending[..0] == [];
    InsertIntoNothing(pending[0]);
  }

  lemma InsertIntoNothing(x: Node)
    ensures Insert([], x) == [x]
  {
  }

  lemma Whole(pending: seq<Node>)
    requires pending != []
    ensures pending[..|pending| - 1] + [pending[|pending| - 1]] == pending
  {
  }

  /** One more node at the end of the list: it becomes the front only with a smaller key. */
  lemma FrontStep(rest: seq<Node>, x: Node)
    requires rest != [] && FrontIsMin(rest)
    ensures FrontIsMin(rest + [x])
  {
    var pending, j := rest + [x], EarliestMin(rest);
    assert pending[..|rest|] == rest && pending[|rest|] == x;
    assert StableSort(pending) == Insert(StableSort(rest), x);
    if x.key < rest[j].key {
      assert EarliestMin(pending) == |rest| && Remove(pending, |rest|) == rest;
      InsertBeforeFront(StableSort(rest), x);
    } else {
      hide Insert, StableSort;
      assert EarliestMin(pending) == j && pending[j] == rest[j];
      RemoveBeforeLast(rest, j, x);
      InsertAfterFront(rest[j], StableSort(Remove(rest, j)), x);
    }
  }

  lemma InsertBeforeFront(q: seq<Node>, x: Node)
    requires q != [] && x.key < q[0].key
    ensures Insert(q, x) == [x] + q
  {
  }

  /** Over any mix of operations the sorted queue serves what the reference serves. */
  lemma {:induction false} ServesEarliestMin(pending: seq<Node>, ops: seq<Op>)
    ensures Served(StableSort(pending), ops) == Reference(pending, ops)
    decreases |ops|
  {
    if ops != [] {
      match ops[0]
      case Arrive(x) =>
        assert (pending + [x])[..|pending|] == pending;
        ServesEarliestMin(pending + [x], ops[1..]);
      case Serve =>
        if pending == [] {
          ServesEarliestMin([], ops[1..]);
        } else {
          var k := EarliestMin(pending);
          FrontIsEarliestMin(pending);
          ServesEarliestMin(Remove(pending, k), ops[1..]);
          assert StableSort(pending)[1..] == StableSort(Remove(pending, k));
        }
    }
  }
}
