/**
 * The orchestration layer of src/grocery_api.cpp. The five global structures
 * (src/grocery_api.cpp:47-51) are the fields of one `Session`; each exported
 * operation is a method on it. The catalog effect of checkout and restore is
 * proved equal to the functions of `CatalogRules`.
 */
module GroceryApi {

  import opened Options
  import opened Products
  import opened Ranking
  import opened FrequentItems
  import opened CustomItems
  import opened LinkedLists
  import opened Stacks
  import opened Queues
  import opened CatalogRules

  /** What `api_undo_last_action` reports: the "No actions to undo" marker or
      the undone record. */
  datatype UndoOutcome = NothingToUndo | Undone(action: Product)

  /** Undoing an add whose line was appended gives back the cart as it was. */
  lemma UndoAfterAppendRestoresCart(s: seq<Product>, val: Product)
    requires FindIndex(s, val.name).None?
    ensures DeletedByName(Pushed(s, val), val.name) == s
  {
    PushItemAppends(s, val);
    StrEqualsIgnoreCaseIsEquivalence(val.name, val.name, val.name);
    var t := s + [val];
    assert forall j :: 0 <= j < |s| ==> t[j] == s[j];
    assert Matches(t[|s|], val.name);
    assert FindIndex(t, val.name) == Some(|s|);
    assert t[..|s|] == s;
  }

  /** Undoing an add that merged into an existing line removes that whole line,
      not only the merged quantity: the stack holds the record that was pushed,
      and undo deletes by name. */
  lemma UndoAfterMergeRemovesWholeLine(s: seq<Product>, val: Product)
    requires FindIndex(s, val.name).Some?
    ensures var k := FindIndex(s, val.name).value;
            DeletedByName(Pushed(s, val), val.name) == RemovedAt(s, k)
  {
    var k := FindIndex(s, val.name).value;
    PushItemMerges(s, val, k);
    assert FindIndex(Pushed(s, val), val.name) == Some(k);
  }

  class Session {
    const frequentItems: FrequentItemsArray
    const cart: LinkedList
    const undoStack: Stack
    const checkoutQueue: Queue
    const customItems: CustomItemsList

    /** Every structure keeps its own invariant; the ranking always has ten
        records; no two cart lines match ignoring case. Ranking order is not part
        of it: `api_increment_purchase_count_by_id` raises a count without
        sorting again. */
    ghost predicate Valid()
      reads this, frequentItems, frequentItems.items, cart, undoStack, checkoutQueue, customItems
    {
      frequentItems.Valid() && frequentItems.currentSize == MaxFrequentItems
      && cart.Valid() && LinkedLists.NamesDistinct(cart.items)
      && undoStack.Valid() && checkoutQueue.Valid() && customItems.Valid()
    }

    /** The ranking and the pool as one value. */
    function CatalogState(): Catalog
      reads this, frequentItems, frequentItems.items, customItems
      requires frequentItems.Valid()
    {
      Catalog(frequentItems.Contents(), customItems.State())
    }

    /** Program start: the ten defaults, everything else empty. */
    constructor ()
      ensures Valid() && SortedDesc(frequentItems.Contents())
      ensures CatalogState() == Catalog(DefaultItems(), EmptyPool())
      ensures cart.items == [] && undoStack.items == [] && checkoutQueue.items == []
    {
      frequentItems := new FrequentItemsArray();
      cart := new LinkedList();
      undoStack := new Stack();
      checkoutQueue := new Queue();
      customItems := new CustomItemsList();
      new;
      DefaultItemsSorted();
    }

    /** `api_increment_purchase_count_by_id`: one increment by id, without a
        re-sort, so the ranking may leave ranking order. */
    method IncrementPurchaseCountById(itemId: int)
      requires Valid()
      modifies frequentItems.items
      ensures Valid()
      ensures frequentItems.Contents() == AddedToId(old(frequentItems.Contents()), itemId, 1)
      ensures customItems.State() == old(customItems.State())
    {
      AddedToIdChangesOnlyOneCount(frequentItems.Contents(), itemId, 1);
      var _ := frequentItems.IncrementPurchaseCountById(itemId);
    }

    /** `api_add_to_cart`: `push_item` on the cart (merge or append) and always
        exactly one record pushed onto the undo stack. */
    method AddToCart(name: string, price: real, quantity: int, productId: int)
      requires Valid()
      modifies cart, undoStack
      ensures Valid()
      ensures cart.items == Pushed(old(cart.items), Product(name, price, quantity, productId))
      ensures undoStack.items == [Product(name, price, quantity, productId)] + old(undoStack.items)
    {
      var product := NewProduct(name, price, quantity, productId);
      PushedKeepsNamesDistinct(cart.items, product);
      cart.PushItem(product);
      undoStack.Push(product);
    }

    /** `api_remove_from_cart`, list effect only: `delete_at_position`. */
    method RemoveFromCart(position: int) returns (removed: Product)
      requires Valid()
      modifies cart
      ensures Valid()
      ensures !(1 <= position <= |old(cart.items)|) ==>
                removed == DefaultProduct() && cart.items == old(cart.items)
      ensures 1 <= position <= |old(cart.items)| ==>
                removed == old(cart.items)[position - 1] && cart.items == RemovedAt(old(cart.items), position - 1)
    {
      if 1 <= position <= |cart.items| {
        RemovedAtKeepsNamesDistinct(cart.items, position - 1);
      }
      removed := cart.DeleteAtPosition(position);
    }

    /** `api_undo_last_action`: nothing to undo on an empty stack; otherwise pop
        the newest record and delete the first cart line matching its name. */
    method UndoLastAction() returns (outcome: UndoOutcome)
      requires Valid()
      modifies cart, undoStack
      ensures Valid()
      ensures old(undoStack.items) == [] ==>
                outcome == NothingToUndo && undoStack.items == [] && cart.items == old(cart.items)
      ensures old(undoStack.items) != [] ==>
                outcome == Undone(old(undoStack.items)[0])
                && undoStack.items == old(undoStack.items)[1..]
                && cart.items == DeletedByName(old(cart.items), old(undoStack.items)[0].name)
    {
      if undoStack.Empty() {
        return NothingToUndo;
      }
      var lastAction := undoStack.Pop();
      DeletedByNameKeepsNamesDistinct(cart.items, lastAction.name);
      var _ := cart.DeleteByName(lastAction.name);
      return Undone(lastAction);
    }

    /** `checkAndPromoteCustomItems`. */
    method CheckAndPromoteCustomItems()
      requires Valid()
      modifies frequentItems.items, customItems
      ensures Valid()
      ensures CatalogState() == Promoted(old(CatalogState()))
      ensures old(SortedDesc(frequentItems.Contents())) ==> SortedDesc(frequentItems.Contents())
    {
      PromotedKeepsShape(CatalogState());
      var topCustom := customItems.GetHighestPurchaseItem();
      if topCustom.None? {
        return;
      }
      var top := customItems.nodes[topCustom.value];
      var lastFrequent := frequentItems.GetLastItem();
      if top.purchaseCount > lastFrequent.purchaseCount {
        var lastIndex := frequentItems.Size() - 1;
        var _ := frequentItems.ReplaceItem(lastIndex, top.uniqueId, top.name, top.price,
                                           NewItemIcon, top.purchaseCount);
        var _ := customItems.Remove(top.name);
        frequentItems.SortByFrequency();
      }
    }

    /** `api_start_checkout`: every cart line, in cart order, is enqueued and
        counted; then the ranking is sorted, one promotion runs, and the cart
        and the undo stack are emptied. */
    method StartCheckout()
      requires Valid()
      modifies frequentItems.items, customItems, cart, undoStack, checkoutQueue
      ensures Valid() && SortedDesc(frequentItems.Contents())
      ensures checkoutQueue.items == old(checkoutQueue.items) + old(cart.items)
      ensures CatalogState() == CheckedOut(old(CatalogState()), old(cart.items))
      ensures cart.items == [] && undoStack.items == []
    {
      ghost var start, lines := CatalogState(), cart.items;
      EnqueueAndCountLines();
      ghost var counted := CountLines(start, lines);
      frequentItems.SortByFrequency();
      ByFrequencySorted(counted.ranked);
      CheckAndPromoteCustomItems();
      assert CatalogState() == CheckedOut(start, lines);
      cart.Clear();
      undoStack.Clear();
    }

    /** The `while` loop of `api_start_checkout`: each cart line, head first, is
        enqueued and then counted. */
    method EnqueueAndCountLines()
      requires frequentItems.Valid() && customItems.Valid() && checkoutQueue.Valid()
      modifies frequentItems.items, customItems, checkoutQueue
      ensures frequentItems.Valid() && customItems.Valid() && checkoutQueue.Valid()
      ensures checkoutQueue.items == old(checkoutQueue.items) + cart.items
      ensures CatalogState() == CountLines(old(CatalogState()), cart.items)
    {
      var i := 0;
      while i < |cart.items|
        invariant 0 <= i <= |cart.items|
        invariant frequentItems.Valid() && customItems.Valid() && checkoutQueue.Valid()
        invariant checkoutQueue.items == old(checkoutQueue.items) + cart.items[..i]
        invariant CatalogState() == CountLines(old(CatalogState()), cart.items[..i])
      {
        var item := cart.items[i];
        checkoutQueue.Enqueue(item);
        CountCheckoutLine(item);
        assert cart.items[..i + 1] == cart.items[..i] + [item];
        i := i + 1;
      }
      assert cart.items[..i] == cart.items;
    }

    /** One line of the checkout loop, after it is enqueued: the id decides
        whether the pool or the ranking counts its quantity. */
    method CountCheckoutLine(item: Product)
      requires frequentItems.Valid() && customItems.Valid()
      modifies frequentItems.items, customItems
      ensures frequentItems.Valid() && customItems.Valid()
      ensures CatalogState() == CountLine(old(CatalogState()), item)
    {
      var productId := item.productId;
      if productId == -1 || productId >= FirstCustomId {
        var _ := customItems.AddOrUpdate(item.name, item.price, item.quantity);
      } else {
        RaiseCount(productId, item.quantity);
      }
    }

    /** The `for` loop of single increments by id, run `times` times. */
    method RaiseCount(productId: int, times: int)
      requires frequentItems.Valid()
      modifies frequentItems.items
      ensures frequentItems.Valid()
      ensures frequentItems.Contents() == AddedToId(old(frequentItems.Contents()), productId, Repeats(times))
    {
      var k := 0;
      while k < times
        invariant 0 <= k <= Repeats(times)
        invariant frequentItems.Valid()
        invariant frequentItems.Contents() == AddedToId(old(frequentItems.Contents()), productId, k)
      {
        var _ := frequentItems.IncrementPurchaseCountById(productId);
        AddedToIdTwice(old(frequentItems.Contents()), productId, k, 1);
        k := k + 1;
      }
    }

    /** The `for` loop of `addOrUpdate(name, price, 1)`, run `times` times. */
    method AddToPool(name: string, price: real, times: int)
      requires customItems.Valid()
      modifies customItems
      ensures customItems.Valid()
      ensures customItems.State() == AddedRepeatedly(old(customItems.State()), name, price, times)
    {
      var j := 0;
      while j < times
        invariant 0 <= j <= Repeats(times)
        invariant customItems.Valid()
        invariant customItems.State() == AddedRepeatedly(old(customItems.State()), name, price, j)
      {
        var _ := customItems.AddOrUpdate(name, price, 1);
        j := j + 1;
      }
    }

    /** `api_process_checkout`, item order and queue effect only: the queue is
        drained front first, so the receipt lists the lines in enqueue order. */
    method ProcessCheckout() returns (receipt: seq<Product>)
      requires Valid()
      modifies checkoutQueue
      ensures Valid()
      ensures receipt == old(checkoutQueue.items) && checkoutQueue.items == []
    {
      receipt := [];
      while !checkoutQueue.Empty()
        invariant checkoutQueue.Valid()
        invariant receipt + checkoutQueue.items == old(checkoutQueue.items)
        decreases |checkoutQueue.items|
      {
        var item := checkoutQueue.Dequeue();
        receipt := receipt + [item];
      }
    }

    /** `api_restore_custom_item`. */
    method RestoreCustomItem(name: string, price: real, purchaseCount: int, itemId: int)
      requires Valid()
      modifies frequentItems.items, customItems
      ensures Valid() && SortedDesc(frequentItems.Contents())
      ensures CatalogState() == Restored(old(CatalogState()), name, price, purchaseCount, itemId)
    {
      RestoredShape(CatalogState(), name, price, purchaseCount, itemId);
      ghost var start := CatalogState();
      var foundInFrequent := false;
      var i := 0;
      while i < frequentItems.Size()
        invariant 0 <= i <= frequentItems.Size()
        invariant !foundInFrequent
        invariant forall j :: 0 <= j < i ==> frequentItems.Contents()[j].id != itemId
      {
        var item := frequentItems.GetItem(i);
        if item.id == itemId {
          RaiseCount(itemId, purchaseCount);
          foundInFrequent := true;
          break;
        }
        i := i + 1;
      }
      if !foundInFrequent {
        AddToPool(name, price, purchaseCount);
        CheckAndPromoteCustomItems();
      }
      frequentItems.SortByFrequency();
    }

    /** `api_reset_all`: cart, undo stack, queue and pool emptied; the ranking and
        the pool's id counter are kept. */
    method ResetAll()
      requires Valid()
      modifies cart, undoStack, checkoutQueue, customItems
      ensures Valid()
      ensures cart.items == [] && undoStack.items == [] && checkoutQueue.items == []
      ensures customItems.nodes == [] && customItems.nextId == old(customItems.nextId)
      ensures frequentItems.Contents() == old(frequentItems.Contents())
    {
      cart.Clear();
      undoStack.Clear();
      checkoutQueue.Clear();
      customItems.Clear();
    }

    /** `api_factory_reset`: as `ResetAll`, and the ranking goes back to the ten
        defaults with count 0. */
    method FactoryReset()
      requires Valid()
      modifies frequentItems, frequentItems.items, cart, undoStack, checkoutQueue, customItems
      ensures Valid() && SortedDesc(frequentItems.Contents())
      ensures cart.items == [] && undoStack.items == [] && checkoutQueue.items == []
      ensures customItems.nodes == [] && customItems.nextId == old(customItems.nextId)
      ensures frequentItems.Contents() == DefaultItems()
    {
      cart.Clear();
      undoStack.Clear();
      checkoutQueue.Clear();
      customItems.Clear();
      frequentItems.ResetToDefaults();
      DefaultItemsSorted();
    }
  }
}
