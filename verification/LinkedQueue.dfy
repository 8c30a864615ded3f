// The singly linked queue on the heap: front, rear and len, with the walks the program makes.
module LinkedQueue {
  import opened QueueSpec

  datatype Option<+T> = None | Some(value: T)

  /** A cell never changes what it carries, only what it links to. */
  class Cell {
    const data: nat
    const key: int
    var next: Cell?

    constructor (data: nat, key: int)
      ensures this.data == data && this.key == key && this.next == null
    {
      this.data, this.key, this.next := data, key, null;
    }
  }

  function Nodes(spine: seq<Cell>): (q: seq<Node>)
    ensures |q| == |spine|
  {
    seq(|spine|, i requires 0 <= i < |spine| => Node(spine[i].data, spine[i].key))
  }

  /** Splitting a spine around a new cell splits the contents the same way. */
  lemma NodesInsert(spine: seq<Cell>, k: nat, c: Cell)
    requires k <= |spine|
    ensures Nodes(spine[..k] + [c] + spine[k..]) == Nodes(spine)[..k] + [Node(c.data, c.key)] + Nodes(spine)[k..]
  {
  }

  lemma NodesTail(spine: seq<Cell>)
    requires spine != []
    ensures Nodes(spine[1..]) == Nodes(spine)[1..]
  {
  }

  lemma NodesRemove(spine: seq<Cell>, k: nat)
    requires k < |spine|
    ensures Nodes(spine[..k] + spine[k + 1..]) == Nodes(spine)[..k] + Nodes(spine)[k + 1..]
  {
  }

  // ----- What a search by pid finds -----

  predicate FirstMatch(spine: seq<Cell>, pid: nat, k: nat) {
    k < |spine| && spine[k].data == pid && forall j | 0 <= j < k :: spine[j].data != pid
  }

  predicate NoMatch(spine: seq<Cell>, pid: nat) {
    forall j | 0 <= j < |spine| :: spine[j].data != pid
  }

  /** The rear of two or more cells has the pid and the front has not. */
  predicate MatchesRear(spine: seq<Cell>, pid: nat) {
    |spine| >= 2 && spine[0].data != pid && spine[|spine| - 1].data == pid
  }

  /** There is one first match at most, and if there is one there is a match. */
  lemma MatchIs(spine: seq<Cell>, pid: nat, k: nat)
    requires k < |spine| && spine[k].data == pid && forall j | 0 <= j < k :: spine[j].data != pid
    ensures FirstMatch(spine, pid, k) && !NoMatch(spine, pid)
    ensures forall j: nat | FirstMatch(spine, pid, j) :: j == k
    ensures k == 0 ==> spine[..k] + spine[k + 1..] == spine[1..]
  {
  }

  lemma MatchIsNot(spine: seq<Cell>, pid: nat)
    requires forall j | 0 <= j < |spine| :: spine[j].data != pid
    ensures NoMatch(spine, pid) && forall j: nat :: !FirstMatch(spine, pid, j)
  {
  }

  class Queue {
    var len: nat
    var front: Cell?
    var rear: Cell?
    ghost var spine: seq<Cell>

    ghost predicate Valid()
      reads this, spine
    {
      && len == |spine|
      && (forall i, j | 0 <= i < j < |spine| :: spine[i] != spine[j])
      && (forall i {:trigger spine[i].next} | 0 <= i < |spine| - 1 :: spine[i].next == spine[i + 1])
      && (if |spine| == 0 then front == null && rear == null
          else front == spine[0] && rear == spine[|spine| - 1] && rear.next == null)
    }

    ghost function Contents(): (q: seq<Node>)
      reads this
      ensures |q| == |spine|
    {
      Nodes(spine)
    }

    constructor ()
      ensures Valid() && fresh(this) && spine == [] && Contents() == []
    {
      len, front, rear, spine := 0, null, null, [];
    }

    /** The cells hang together from the front; len and rear may say anything. */
    ghost predicate Linked()
      reads this, spine
    {
      && (forall i, j | 0 <= i < j < |spine| :: spine[i] != spine[j])
      && (forall i {:trigger spine[i].next} | 0 <= i < |spine| - 1 :: spine[i].next == spine[i + 1])
      && (if |spine| == 0 then front == null else front == spine[0] && spine[|spine| - 1].next == null)
    }

    /** The run-time checks of isValidQueue, in the program's order. A longer queue passes exactly when
        it is valid; one that claims a single cell passes if front and rear are the same. With two or
        more claimed and no cell at all the program would follow a null pointer. */
    method CheckLinks() returns (ok: bool)
      requires Linked() && (len >= 2 ==> spine != [])
      ensures Valid() ==> ok
      ensures len >= 2 ==> (ok <==> Valid())
      ensures len == 1 ==> (ok <==> front == rear)
      ensures len == 0 ==> (ok <==> Valid())
    {
      if len == 0 {
        return front == null && rear == null;
      }
      if len == 1 {
        return front == rear;
      }
      var count, tnode, snode := 1, front, front.next;
      ghost var i := 0;
      while tnode.next != null
        invariant 0 <= i < |spine| && tnode == spine[i] && count == i + 1
        invariant forall j | 0 <= j < i - 1 :: spine[j] != rear
        invariant snode == if i > 0 && spine[i - 1] == rear then spine[i]
                           else if i + 1 < |spine| then spine[i + 1] else null
        decreases |spine| - i
      {
        if tnode.next != snode || tnode.next == tnode {
          return false;
        }
        if tnode != rear {
          snode := snode.next;
        }
        count := count + 1;
        tnode := tnode.next;
        i := i + 1;
      }
      ok := tnode == rear && count == len;
    }

    /** The extra check of p_isValidQueue decides whether the keys are in order. */
    method CheckSorted() returns (ok: bool)
      requires Valid()
      ensures ok <==> Sorted(Contents())
    {
      ok := CheckLinks();
      if len >= 2 {
        var tnode := front;
        ghost var i := 0;
        while tnode.next != null
          invariant 0 <= i < |spine| && tnode == spine[i]
          invariant ok <==> Sorted(Contents()[..i + 1])
          decreases |spine| - i
        {
          ghost var q := Contents();
          SortedStep(q, i + 1);
          assert q[i].key == tnode.key && q[i + 1].key == tnode.next.key;
          ok := ok && tnode.key <= tnode.next.key;
          tnode := tnode.next;
          i := i + 1;
        }
        assert Contents()[..|spine|] == Contents();
      }
    }

    /** Walk to the last cell and hang the new one behind it. */
    method Enqueue(data: nat)
      requires Valid()
      modifies this, spine
      ensures Valid() && Contents() == old(Contents()) + [Node(data, 0)]
      ensures exists c: Cell :: fresh(c) && spine == old(spine) + [c]
    {
      var cell := new Cell(data, 0);
      if front == null {
        front, rear := cell, cell;
      } else {
        var tnode := front;
        ghost var i := 0;
        while tnode.next != null
          invariant 0 <= i < |spine| && tnode == spine[i]
          decreases |spine| - i
        {
          tnode := tnode.next;
          i := i + 1;
        }
        tnode.next := cell;
        rear := tnode.next;
      }
      len := len + 1;
      spine := spine + [cell];
    }

    /** The three cases of dequeue: one cell, two cells, more. */
    method Dequeue() returns (r: Option<nat>)
      requires Valid()
      modifies this, spine
      ensures Valid()
      ensures old(spine) == [] ==> r == None && spine == []
      ensures old(spine) != [] ==> r == Some(old(Contents())[0].pid) && spine == old(spine)[1..]
      ensures Contents() == if old(spine) == [] then [] else old(Contents())[1..]
    {
      if len == 0 {
        return None;
      }
      var tnode := front;
      if len == 1 {
        front, rear := null, null;
      } else if len == 2 {
        front.next := null;
        front := rear;
      } else {
        front := tnode.next;
        tnode.next := null;
      }
      len := len - 1;
      spine := spine[1..];
      r := Some(tnode.data);
    }

    /** Hangs a new cell behind the cell at i; behind the rear it becomes the rear. */
    method LinkAfter(tnode: Cell, snode: Cell?, cell: Cell, ghost i: nat)
      requires Valid() && i < |spine| && spine[i] == tnode && cell !in spine && cell.next == null
      requires i + 1 < |spine| ==> snode == spine[i + 1]
      modifies this`rear, this`len, this`spine, tnode, cell
      ensures Valid() && spine == old(spine)[..i + 1] + [cell] + old(spine)[i + 1..]
    {
      if tnode == rear {
        rear.next := cell;
        rear := cell;
      } else {
        tnode.next := cell;
        cell.next := snode;
      }
      len := len + 1;
      spine := spine[..i + 1] + [cell] + spine[i + 1..];
    }

    /** Hangs a new cell before the front, in an empty queue as the only one. */
    method LinkFirst(cell: Cell)
      requires Valid() && cell !in spine && cell.next == null
      modifies this, cell
      ensures Valid() && spine == [cell] + old(spine)
    {
      if len == 0 {
        front, rear := cell, cell;
      } else {
        cell.next := front;
        front := cell;
      }
      len := len + 1;
      spine := [cell] + spine;
    }

    /** Stable insertion by key: before the front if that key is larger, else behind the last cell
        the walk passes. */
    method PEnqueue(data: nat, key: int)
      requires Valid()
      modifies this, spine
      ensures Valid() && Contents() == Insert(old(Contents()), Node(data, key))
      ensures var k := Slot(old(Contents()), key);
              |spine| == |old(spine)| + 1 && fresh(spine[k]) && spine == old(spine)[..k] + [spine[k]] + old(spine)[k..]
    {
      var cell := new Cell(data, key);
      ghost var k := Slot(Contents(), key);
      NodesInsert(spine, k, cell);
      if len == 0 {
        LinkFirst(cell);
      } else if front.key > key {
        SlotIs(Contents(), key, 0) by { assert Contents()[0].key > key; }
        LinkFirst(cell);
      } else {
        var tnode, snode: Cell? := front, null;
        ghost var i := 0;
        while tnode.next != null
          invariant 0 <= i < |spine| && tnode == spine[i]
          invariant forall j | 0 <= j <= i :: spine[j].key <= key
          decreases |spine| - i
        {
          snode := tnode.next;
          if snode.key > key {
            break;
          }
          tnode := tnode.next;
          i := i + 1;
        }
        SlotAfter(spine, key, i);
        LinkAfter(tnode, snode, cell, i);
      }
    }

    /** Takes the cell behind prev out of the middle of the list. */
    method UnlinkAfter(prev: Cell, ghost i: nat)
      requires Valid() && i + 2 < |spine| && spine[i] == prev
      modifies this`len, this`spine, prev
      ensures Valid() && spine == old(spine)[..i + 1] + old(spine)[i + 2..]
      ensures Contents() == old(Contents())[..i + 1] + old(Contents())[i + 2..]
    {
      NodesRemove(spine, i + 1);
      prev.next := prev.next.next;
      len := len - 1;
      spine := spine[..i + 1] + spine[i + 2..];
      assert forall j | i < j < |spine| :: spine[j] == old(spine)[j + 1];
    }

    /** The same for the last cell: rear moves back. */
    method UnlinkRear(prev: Cell, ghost i: nat)
      requires Valid() && i + 2 == |spine| && spine[i] == prev
      modifies this`len, this`rear, this`spine, prev
      ensures Valid() && spine == old(spine)[..i + 1]
      ensures Contents() == old(Contents())[..i + 1] + old(Contents())[i + 2..]
    {
      prev.next := null;
      rear := prev;
      len := len - 1;
      spine := spine[..i + 1];
    }

    /** The same for the first of several cells. */
    method UnlinkFront()
      requires Valid() && 2 <= |spine|
      modifies this`front, this`len, this`spine
      ensures Valid() && spine == old(spine)[1..] && Contents() == old(Contents())[1..]
    {
      NodesTail(spine);
      front := front.next;
      len := len - 1;
      spine := spine[1..];
    }

    /** As written: a match at the rear is answered by dequeuing the front, and the node asked for
        stays. Any other match is unlinked at its first place. */
    method RemoveByPid(pid: nat) returns (r: Option<nat>)
      requires Valid()
      modifies this, spine
      ensures Valid()
      ensures MatchesRear(old(spine), pid) ==>
                r == Some(old(spine)[0].data) && spine == old(spine)[1..] && rear == old(rear) && rear.data == pid
      ensures forall k: nat | !MatchesRear(old(spine), pid) && FirstMatch(old(spine), pid, k) ::
                r == Some(pid) && spine == old(spine)[..k] + old(spine)[k + 1..]
      ensures NoMatch(old(spine), pid) ==> r == None && spine == old(spine)
      ensures (Contents(), r) == RemoveAsWritten(old(Contents()), pid)
    {
      ghost var q := Contents();
      if len == 0 {
        return None;
      }
      if front == rear {
        if front.data == pid {
          FirstIs(q, pid, 0);
          NodesTail(spine);
          front, rear, len, spine := null, null, len - 1, spine[1..];
          return Some(pid);
        }
        FirstNone(q, pid);
        return None;
      }
      if front.data == pid {
        FirstIs(q, pid, 0);
        var tnode := front;
        UnlinkFront();
        return Some(tnode.data);
      }
      if rear.data == pid {
        r := Dequeue();
        return;
      }
      var prev := front;
      ghost var i := 0;
      while prev.next != null
        invariant 0 <= i < |spine| && prev == spine[i]
        invariant forall j | 0 <= j <= i :: spine[j].data != pid
        decreases |spine| - i
      {
        if prev.next.data == pid {
          var mid := prev.next;
          FirstIs(q, pid, i + 1);
          UnlinkAfter(prev, i);
          return Some(mid.data);
        }
        prev := prev.next;
        i := i + 1;
      }
      FirstNone(q, pid);
      r := None;
    }

    /** The corrected variant: the walk also unlinks a match at the rear and moves rear back. */
    method RemoveByPidCorrected(pid: nat) returns (r: Option<nat>)
      requires Valid()
      modifies this, spine
      ensures Valid()
      ensures forall k: nat | FirstMatch(old(spine), pid, k) ::
                r == Some(pid) && spine == old(spine)[..k] + old(spine)[k + 1..]
      ensures NoMatch(old(spine), pid) ==> r == None && spine == old(spine)
      ensures (Contents(), r) == RemoveFirst(old(Contents()), pid)
    {
      hide FirstMatch, NoMatch;
      ghost var q, cells := Contents(), spine;
      if len == 0 {
        MatchIsNot(cells, pid);
        return None;
      }
      if front.data == pid {
        FirstIs(q, pid, 0);
        MatchIs(cells, pid, 0);
        r := Dequeue();
        return;
      }
      var prev := front;
      ghost var i := 0;
      while prev.next != null
        invariant 0 <= i < |spine| && prev == spine[i]
        invariant forall j | 0 <= j <= i :: spine[j].data != pid
        decreases |spine| - i
      {
        if prev.next.data == pid {
          var mid := prev.next;
          FirstIs(q, pid, i + 1);
          MatchIs(cells, pid, i + 1);
          if mid == rear {
            UnlinkRear(prev, i);
          } else {
            UnlinkAfter(prev, i);
          }
          return Some(mid.data);
        }
        prev := prev.next;
        i := i + 1;
      }
      FirstNone(q, pid);
      MatchIsNot(cells, pid);
      r := None;
    }
  }

  lemma SlotAfter(spine: seq<Cell>, key: int, i: nat)
    requires i < |spine| && (forall j | 0 <= j <= i :: spine[j].key <= key)
    requires i + 1 < |spine| ==> spine[i + 1].key > key
    ensures Slot(Nodes(spine), key) == i + 1
  {
    SlotIs(Nodes(spine), key, i + 1);
  }

  /** The index of the first node with a pid, or the length. */
  function First(q: seq<Node>, pid: nat): (k: nat)
    ensures k <= |q|
  {
    if q == [] || q[0].pid == pid then 0 else 1 + First(q[1..], pid)
  }

  /** What removal is meant to do. */
  function RemoveFirst(q: seq<Node>, pid: nat): (seq<Node>, Option<nat>) {
    var k := First(q, pid);
    if k == |q| then (q, None) else (q[..k] + q[k + 1..], Some(pid))
  }

  /** What removal does: with two or more nodes and a match at the rear only, it serves the front. */
  function RemoveAsWritten(q: seq<Node>, pid: nat): (seq<Node>, Option<nat>) {
    if |q| >= 2 && q[0].pid != pid && q[|q| - 1].pid == pid then (q[1..], Some(q[0].pid))
    else RemoveFirst(q, pid)
  }

  lemma {:induction false} FirstIs(q: seq<Node>, pid: nat, k: nat)
    requires k < |q| && q[k].pid == pid && forall j | 0 <= j < k :: q[j].pid != pid
    ensures First(q, pid) == k
    ensures RemoveFirst(q, pid) == (q[..k] + q[k + 1..], Some(pid))
    ensures k == 0 ==> RemoveFirst(q, pid) == (q[1..], Some(pid))
  {
    if k > 0 {
      assert q[0].pid != pid;
      FirstIs(q[1..], pid, k - 1);
    } else {
      assert q[..0] + q[1..] == q[1..];
    }
  }

  lemma {:induction false} FirstNone(q: seq<Node>, pid: nat)
    requires forall j | 0 <= j < |q| :: q[j].pid != pid
    ensures First(q, pid) == |q|
  {
    if q != [] {
      FirstNone(q[1..], pid);
    }
  }

  lemma {:induction false} SlotIs(q: seq<Node>, key: int, k: nat)
    requires k <= |q| && (forall j | 0 <= j < k :: q[j].key <= key) && (k < |q| ==> q[k].key > key)
    ensures Slot(q, key) == k
  {
  }

  predicate DistinctPids(q: seq<Node>) {
    forall i, j | 0 <= i < j < |q| :: q[i].pid != q[j].pid
  }

  /** The intended removal takes out exactly the node with that pid and keeps the others' order. */
  lemma RemovesExactly(q: seq<Node>, pid: nat)
    requires DistinctPids(q)
    ensures var (r, found) := RemoveFirst(q, pid);
            && (found == None <==> forall i | 0 <= i < |q| :: q[i].pid != pid)
            && (found == None ==> r == q)
            && (found != None ==> found == Some(pid))
            && (found != None ==> exists k :: 0 <= k < |q| && q[k].pid == pid && r == q[..k] + q[k + 1..])
            && forall i | 0 <= i < |r| :: r[i].pid != pid
  {
    if forall i | 0 <= i < |q| :: q[i].pid != pid {
      FirstNone(q, pid);
    } else {
      var k :| 0 <= k < |q| && q[k].pid == pid;
      FirstIs(q, pid, k);
    }
  }

  /** Over distinct pids the code meets the intent exactly when the match is not the rear of a
      queue of two or more. */
  lemma RemovalIsRightUnlessAtRear(q: seq<Node>, pid: nat)
    requires DistinctPids(q)
    ensures RemoveAsWritten(q, pid) == RemoveFirst(q, pid) <==> !(|q| >= 2 && q[|q| - 1].pid == pid)
  {
    if |q| >= 2 && q[|q| - 1].pid == pid {
      assert q[0].pid != pid;
      FirstIs(q, pid, |q| - 1);
    }
  }

  lemma SortedStep(q: seq<Node>, k: nat)
    requires 1 <= k < |q|
    ensures Sorted(q[..k + 1]) <==> Sorted(q[..k]) && q[k - 1].key <= q[k].key
  {
    var longer, shorter := q[..k + 1], q[..k];
    if Sorted(longer) {
      assert forall i | 0 <= i < k :: shorter[i] == longer[i];
      assert longer[k - 1].key <= longer[k].key;
    }
    if Sorted(shorter) && q[k - 1].key <= q[k].key {
      forall i, j | 0 <= i < j < k + 1 ensures longer[i].key <= longer[j].key {
        if j == k && i < k - 1 {
          assert shorter[i].key <= shorter[k - 1].key;
        } else if j < k {
          assert shorter[i].key <= shorter[j].key;
        }
      }
    }
  }
}
