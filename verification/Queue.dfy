/**
  The linked queue of circular_pipeline.hpp as one thread sees it: nodes on the heap from a head to
  a dummy tail, refining a sequence.
 */
module Queue {
  import opened Wrappers

  class Node<T> {
    var data: Option<T>
    var next: Node?<T>

    constructor ()
      ensures data == None && next == null
    {
      data, next := None, null;
    }
  }

  class ThreadsafeQueue<T> {
    var count: int
    var head: Node<T>
    var tail: Node<T>
    /** The nodes from head to tail, and the values the nodes before the tail hold. */
    ghost var nodes: seq<Node<T>>
    ghost var contents: seq<T>

    /** The chain is free of cycles, ends in the empty dummy, and holds a value in every other node. */
    ghost predicate Valid()
      reads this, nodes
    {
      && count == |contents| == |nodes| - 1
      && head == nodes[0] && tail == nodes[|nodes| - 1]
      && (forall i, j :: 0 <= i < j < |nodes| ==> nodes[i] != nodes[j])
      && (forall i :: 0 <= i < |contents| ==> nodes[i].data == Some(contents[i]) && nodes[i].next == nodes[i + 1])
      && tail.data == None && tail.next == null
    }

    constructor ()
      ensures Valid() && contents == [] && fresh(nodes)
    {
      var dummy := new Node<T>();
      count, head, tail, nodes, contents := 0, dummy, dummy, [dummy], [];
    }

    /** Appends a value: it goes into the dummy, and a new dummy is linked behind it. */
    method Push(value: T)
      requires Valid()
      modifies this, tail
      ensures Valid() && contents == old(contents) + [value]
      ensures |nodes| == |old(nodes)| + 1 && nodes[..|nodes| - 1] == old(nodes) && fresh(nodes[|nodes| - 1])
    {
      var p := new Node<T>();
      tail.data := Some(value);
      tail.next := p;
      count := count + 1;
      tail := p;
      nodes, contents := nodes + [p], contents + [value];
    }

    /** The same, handing back the stored value: for a pointer, the one the queue now holds. */
    method PushWithRef(value: T) returns (ref: T)
      requires Valid()
      modifies this, tail
      ensures Valid() && contents == old(contents) + [value] && ref == value
      ensures |nodes| == |old(nodes)| + 1 && nodes[..|nodes| - 1] == old(nodes) && fresh(nodes[|nodes| - 1])
    {
      var p := new Node<T>();
      tail.data := Some(value);
      tail.next := p;
      ref := tail.data.value;
      tail := p;
      count := count + 1;
      nodes, contents := nodes + [p], contents + [value];
    }

    /** Unlinks the head node unless it is the dummy. */
    method PopHead() returns (oldHead: Node?<T>)
      requires Valid()
      modifies this, head
      ensures Valid()
      ensures old(contents) == [] ==> oldHead == null && contents == [] && nodes == old(nodes)
      ensures old(contents) != [] ==>
        && oldHead == old(head) && oldHead.data == Some(old(contents[0]))
        && contents == old(contents[1..]) && nodes == old(nodes[1..])
    {
      if head == tail {
        return null;
      }
      oldHead := head;
      assert head.next == nodes[1];
      head := oldHead.next;
      oldHead.next := null;
      count := count - 1;
      nodes, contents := nodes[1..], contents[1..];
    }

    method TryPop() returns (value: Option<T>)
      requires Valid()
      modifies this, head
      ensures Valid()
      ensures old(contents) == [] ==> value == None && contents == [] && nodes == old(nodes)
      ensures old(contents) != [] ==>
        value == Some(old(contents[0])) && contents == old(contents[1..]) && nodes == old(nodes[1..])
    {
      var oldHead := PopHead();
      if oldHead == null {
        return None;
      }
      return oldHead.data;
    }

    /** Whether there was a value; the test removes it. */
    method Peek() returns (found: bool)
      requires Valid()
      modifies this, head
      ensures Valid()
      ensures found <==> old(contents) != []
      ensures contents == if found then old(contents[1..]) else []
      ensures nodes == if found then old(nodes[1..]) else old(nodes)
    {
      var oldHead := PopHead();
      found := oldHead != null;
    }

    method IsEmpty() returns (empty: bool)
      requires Valid()
      ensures empty <==> contents == []
    {
      empty := head == tail;
    }

    method GetCount() returns (n: int)
      requires Valid()
      ensures n == |contents|
    {
      n := count;
    }
  }
}
