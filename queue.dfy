/**
 * The checkout queue of src/core/Queue.h. The node chain from `queue_front` to
 * `queue_rear` is the sequence `items`; the two pointers are kept as the records
 * they designate (None for a null pointer), and `queue_size` beside them.
 */
module Queues {

  import opened Options
  import opened Products

  class Queue {
    var items: seq<Product>
    var front: Option<Product>
    var rear: Option<Product>
    var queueSize: int

    /** Empty means both pointers are null; otherwise they designate the first
        and the last node, and `queue_size` counts the nodes. */
    ghost predicate Valid()
      reads this
    {
      && queueSize == |items|
      && (items == [] ==> front == None && rear == None)
      && (items != [] ==> front == Some(items[0]) && rear == Some(items[|items| - 1]))
    }

    constructor ()
      ensures Valid() && items == []
    {
      items := [];
      front := None;
      rear := None;
      queueSize := 0;
    }

    /** `empty()`: tests the front pointer alone. */
    function Empty(): (r: bool)
      reads this
      requires Valid()
      ensures r <==> items == [] && rear == None && queueSize == 0
    {
      front == None
    }

    function Size(): (n: int)
      reads this
      requires Valid()
      ensures n == |items|
    {
      queueSize
    }

    /** `front()`: the oldest entry, or a default product when empty. */
    function Front(): (p: Product)
      reads this
      requires Valid()
      ensures items == [] ==> p == DefaultProduct()
      ensures items != [] ==> p == items[0]
    {
      if Empty() then DefaultProduct() else front.value
    }

    /** `rear()`: the newest entry, or a default product when empty. */
    function Rear(): (p: Product)
      reads this
      requires Valid()
      ensures items == [] ==> p == DefaultProduct()
      ensures items != [] ==> p == items[|items| - 1]
    {
      if Empty() then DefaultProduct() else rear.value
    }

    /** `enqueue`: appends at the rear; afterwards `rear()` is `val`. */
    method Enqueue(val: Product)
      requires Valid()
      modifies this
      ensures Valid() && items == old(items) + [val]
      ensures Rear() == val && Size() == old(Size()) + 1
    {
      if Empty() {
        front := Some(val);
        rear := Some(val);
      } else {
        rear := Some(val);
      }
      items := items + [val];
      queueSize := queueSize + 1;
    }

    /** `dequeue`: removes and returns the front entry, the others keep their
        order; removing the last entry resets the rear pointer too. On an empty
        queue a default product and no change. */
    method Dequeue() returns (dequeued: Product)
      requires Valid()
      modifies this
      ensures Valid()
      ensures old(items) == [] ==> dequeued == DefaultProduct() && items == []
      ensures old(items) != [] ==> dequeued == old(items)[0] && items == old(items)[1..]
    {
      if Empty() {
        return DefaultProduct();
      }
      dequeued := front.value;
      items := items[1..];
      front := if items == [] then None else Some(items[0]);
      if front == None {
        rear := None;
      }
      queueSize := queueSize - 1;
    }

    /** `clear`: dequeues until empty. */
    method Clear()
      requires Valid()
      modifies this
      ensures Valid() && items == [] && front == None && rear == None
    {
      while !Empty()
        invariant Valid()
        decreases |items|
      {
        var _ := Dequeue();
      }
    }
  }
}
