/** The doubly linked result list whose operations the context emits. */
module QrList {
  class QrNode<T> {
    var next: QrNode?<T>
    var prev: QrNode?<T>
    var elem: T

    constructor (elem: T, prev: QrNode?<T>, next: QrNode?<T>)
      ensures this.elem == elem && this.prev == prev && this.next == next
    {
      this.elem, this.prev, this.next := elem, prev, next;
    }
  }

  class List<T> {
    var head: QrNode?<T>
    var tail: QrNode?<T>
    var size: nat
    // The nodes of the list, from the front.
    ghost var nodes: seq<QrNode<T>>

    /** Forward and backward links run through the same distinct nodes and end in null on both sides,
        so there is no cycle; and the size is their number. */
    ghost predicate Valid()
      reads this, nodes
    {
      && size == |nodes|
      && (forall i, j :: 0 <= i < j < |nodes| ==> nodes[i] != nodes[j])
      && head == (if nodes == [] then null else nodes[0])
      && tail == (if nodes == [] then null else nodes[|nodes| - 1])
      && (forall i {:trigger nodes[i].next} :: 0 <= i < |nodes| - 1 ==> nodes[i].next == nodes[i + 1])
      && (forall i {:trigger nodes[i].prev} :: 0 < i < |nodes| ==> nodes[i].prev == nodes[i - 1])
      && (nodes != [] ==> nodes[0].prev == null && nodes[|nodes| - 1].next == null)
    }

    ghost function Contents(): (s: seq<T>)
      reads this, nodes
      ensures |s| == |nodes|
    {
      seq(|nodes|, i requires 0 <= i < |nodes| reads this, nodes => nodes[i].elem)
    }

    constructor ()
      ensures Valid() && nodes == []
    {
      head, tail, size, nodes := null, null, 0, [];
    }

    method AddFront(x: T)
      requires Valid()
      modifies this, nodes
      ensures Valid() && Contents() == [x] + old(Contents())
      ensures fresh(nodes[0]) && nodes[1..] == old(nodes)
    {
      if size == 0 {
        var node := new QrNode(x, null, null);
        head, tail := node, node;
        nodes := [node];
      } else {
        ghost var was := nodes;
        var node := new QrNode(x, null, head);
        head.prev := node;
        head := node;
        nodes := [node] + nodes;
        assert forall i {:trigger nodes[i]} :: 1 <= i < |nodes| ==> nodes[i] == was[i - 1];
        assert forall i {:trigger was[i]} :: 0 <= i < |was| ==> was[i].elem == old(was[i].elem);
      }
      size := size + 1;
    }

    method GetFront() returns (node: QrNode?<T>)
      requires Valid()
      ensures if nodes == [] then node == null else node == nodes[0] && node.elem == Contents()[0]
    {
      node := if size == 0 then null else head;
    }

    method GetBack() returns (node: QrNode?<T>)
      requires Valid()
      ensures if nodes == [] then node == null else node == nodes[|nodes| - 1] && node.elem == Contents()[|nodes| - 1]
    {
      node := if size == 0 then null else tail;
    }

    method PopBack() returns (node: QrNode?<T>)
      requires Valid()
      modifies this, nodes
      ensures Valid()
      ensures old(nodes) == [] ==> node == null && nodes == []
      ensures old(nodes) != [] ==> nodes == old(nodes[..|nodes| - 1]) && node == old(nodes[|nodes| - 1])
      ensures old(nodes) != [] ==>
                Contents() == old(Contents()[..|nodes| - 1]) && node.elem == old(Contents()[|nodes| - 1])
    {
      if size == 0 {
        return null;
      }
      size := size - 1;
      node := tail;
      if size == 0 {
        head, tail := null, null;
      } else {
        assert tail == nodes[size] && nodes[size].prev == nodes[size - 1];
        var before := tail.prev;
        before.next := null;
        tail := before;
      }
      nodes := nodes[..|nodes| - 1];
    }

    method PopFront() returns (node: QrNode?<T>)
      requires Valid()
      modifies this, nodes
      ensures Valid()
      ensures old(nodes) == [] ==> node == null && nodes == []
      ensures old(nodes) != [] ==> nodes == old(nodes[1..]) && node == old(nodes[0])
      ensures old(nodes) != [] ==> Contents() == old(Contents()[1..]) && node.elem == old(Contents()[0])
    {
      if size == 0 {
        return null;
      }
      size := size - 1;
      node := head;
      if size == 0 {
        head, tail := null, null;
      } else {
        assert head == nodes[0] && nodes[0].next == nodes[1];
        var after := head.next;
        after.prev := null;
        head := after;
      }
      ghost var was := nodes;
      nodes := nodes[1..];
      assert forall i :: 0 <= i < |nodes| ==> nodes[i] == was[i + 1];
    }

    // The walk of while_qr_list, stopped at a position; beyond the end it yields null.
    method At(at: nat) returns (node: QrNode?<T>)
      requires Valid()
      ensures if at < |nodes| then node == nodes[at] && node.elem == Contents()[at] else node == null
    {
      var pos := 0;
      node := head;
      while node != null
        invariant pos <= at && pos <= |nodes|
        invariant node == if pos < |nodes| then nodes[pos] else null
        decreases |nodes| - pos
      {
        if pos == at {
          return;
        }
        pos := pos + 1;
        node := node.next;
      }
    }
  }

  // ----- series of operations -----

  datatype Op<T> = AddFront(x: T) | PopFront | PopBack

  function After<T>(s: seq<T>, op: Op<T>): seq<T> {
    match op
    case AddFront(x) => [x] + s
    case PopFront => if s == [] then [] else s[1..]
    case PopBack => if s == [] then [] else s[..|s| - 1]
  }

  function AfterAll<T>(s: seq<T>, ops: seq<Op<T>>): seq<T>
    decreases |ops|
  {
    if ops == [] then s else AfterAll(After(s, ops[0]), ops[1..])
  }

  /** After any series of operations the list is linked as it should be, and holds what the operations
      make of its sequence. */
  method Perform<T>(list: List<T>, ops: seq<Op<T>>)
    requires list.Valid()
    modifies list, list.nodes
    ensures list.Valid() && list.Contents() == AfterAll(old(list.Contents()), ops)
  {
    for i := 0 to |ops|
      invariant list.Valid()
      invariant AfterAll(list.Contents(), ops[i..]) == AfterAll(old(list.Contents()), ops)
      invariant forall k :: 0 <= k < |list.nodes| ==> list.nodes[k] in old(list.nodes) || fresh(list.nodes[k])
    {
      assert ops[i..][0] == ops[i] && ops[i..][1..] == ops[i + 1..];
      match ops[i] {
        case AddFront(x) => list.AddFront(x);
        case PopFront => var _ := list.PopFront();
        case PopBack => var _ := list.PopBack();
      }
    }
    assert ops[|ops|..] == [];
  }

  // Adding at the front and taking from the back is a queue: elements come out in the order they went in.
  lemma {:induction false} QueueOrder<T>(xs: seq<T>, s: seq<T>)
    ensures AfterAll(s, Adds(xs)) == Reverse(xs) + s
    decreases |xs|
  {
    hide Adds;
    AddsFirst(xs);
    if xs != [] {
      QueueOrder(xs[1..], [xs[0]] + s);
      assert Reverse(xs[1..]) + ([xs[0]] + s) == Reverse(xs[1..]) + [xs[0]] + s;
    }
  }

  function Adds<T>(xs: seq<T>): seq<Op<T>> {
    seq(|xs|, i requires 0 <= i < |xs| => AddFront(xs[i]))
  }

  lemma AddsFirst<T>(xs: seq<T>)
    ensures Adds(xs) == if xs == [] then [] else [AddFront(xs[0])] + Adds(xs[1..])
  {
  }

  function Reverse<T>(xs: seq<T>): seq<T> {
    if xs == [] then [] else Reverse(xs[1..]) + [xs[0]]
  }
}
