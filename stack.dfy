/**
 * The undo stack of src/core/Stack.h. The node chain from `stack_top` is the
 * sequence `items`, newest first; `stack_size` is kept beside it.
 */
module Stacks {

  import opened Products

  class Stack {
    var items: seq<Product>
    var stackSize: int

    /** `stack_size` always equals the number of nodes. */
    ghost predicate Valid()
      reads this
    {
      stackSize == |items|
    }

    constructor ()
      ensures Valid() && items == []
    {
      items := [];
      stackSize := 0;
    }

    /** `empty()`: the top pointer is null exactly when the size is zero. */
    function Empty(): (r: bool)
      reads this
      requires Valid()
      ensures r <==> stackSize == 0
    {
      items == []
    }

    function Size(): (n: int)
      reads this
      requires Valid()
      ensures n == |items|
    {
      stackSize
    }

    /** `top()`: the newest record, or a default product when empty. */
    function Top(): (p: Product)
      reads this
      requires Valid()
      ensures items == [] ==> p == DefaultProduct()
      ensures items != [] ==> p == items[0]
    {
      if Empty() then DefaultProduct() else items[0]
    }

    /** `push`: `val` becomes the top and the size grows by one. */
    method Push(val: Product)
      requires Valid()
      modifies this
      ensures Valid() && items == [val] + old(items)
      ensures Top() == val && Size() == old(Size()) + 1
    {
      items := [val] + items;
      stackSize := stackSize + 1;
    }

    /** `pop`: removes and returns the newest record; on an empty stack a default
        product and no change. After `Push(v)`, `Pop` returns `v` and leaves the
        stack as it was before the push. */
    method Pop() returns (popped: Product)
      requires Valid()
      modifies this
      ensures Valid()
      ensures old(items) == [] ==> popped == DefaultProduct() && items == []
      ensures old(items) != [] ==> popped == old(items)[0] && items == old(items)[1..]
    {
      if Empty() {
        return DefaultProduct();
      }
      popped := items[0];
      items := items[1..];
      stackSize := stackSize - 1;
    }

    /** `clear`: pops until empty. */
    method Clear()
      requires Valid()
      modifies this
      ensures Valid() && items == [] && Size() == 0
    {
      while !Empty()
        invariant Valid()
        decreases |items|
      {
        var _ := Pop();
      }
    }
  }
}
