# Smart Grocery Cart: verified model of the data-structure core

This project models the C++ core of the Smart Grocery Cart and proves properties of that model in Dafny. The core covers:

- a ranking of ten frequently bought items, kept in a fixed array;
- a pool of custom items that are not ranked yet;
- the shopping cart (a singly linked list);
- the undo stack and the checkout queue;
- the product record;
- the library layer in `src/grocery_api.cpp` that ties these together: add to cart, undo, checkout with purchase counting, promotion of a custom item into the ranking, restore, and the two resets.

The model has one module per source file:

| module | file | models |
|---|---|---|
| `Products` | `product.dfy` | `src/core/Product.h`. A value type, so it is modelled as a datatype. A setter is a functional update. |
| `LinkedLists` | `linked_list.dfy` | `src/core/LinkedList.h`. The class keeps `items` (the nodes in head-first order) and `itemCount`. |
| `Stacks` | `stack.dfy` | `src/core/Stack.h`. The class keeps `items` (newest first) and `stackSize`. |
| `Queues` | `queue.dfy` | `src/core/Queue.h`. The class keeps `items` (front first), `front` and `rear` as optional records standing for the two pointers, and `queueSize`. |
| `Ranking` | `ranking.dfy` | The `FrequentItem` record of `src/core/Array.h`, and the ranking order as a function `ByFrequency`: a stable sort by count, highest first. |
| `FrequentItems` | `frequent_items.dfy` | `FrequentItemsArray`. It keeps a real array of ten records plus `currentSize`, and the in-place bubble sort. |
| `CustomItems` | `custom_items.dfy` | `CustomItemsList`. The class keeps `nodes` (head first), `itemCount` and `nextId`. |
| `CatalogRules` | `catalog_rules.dfy` | What `src/grocery_api.cpp` does to the ranking and the pool, written as functions on values. |
| `GroceryApi` | `grocery_api.dfy` | The five globals of `src/grocery_api.cpp:47-51`, as the fields of one `Session` class, and the exported operations as its methods. |
| `Options` | `options.dfy` | The `Option` datatype, standing for a null pointer. |

Each method changes what its `modifies` clause names and nothing else. Its `ensures` ties the new state to the old one through a specification function. The lemmas about these functions state the promised properties.

The main results:

- The bubble sort of `sortByFrequency` produces exactly `ByFrequency` of the old contents. `ByFrequency` is a permutation, it is sorted by count, and it keeps records with equal counts in their previous order. It is the only sequence with those two properties.
- `Session.Valid()` holds after every operation. It says:
  - the ranking always has ten records;
  - no two cart lines have names that are equal ignoring case;
  - the pool has one node per name and one id per node, and every id lies in [1000, `nextId`).
- Ranking order is not part of `Session.Valid()`. `api_increment_purchase_count_by_id` raises one count and does not sort again, so the ranking can leave ranking order. Start, checkout, restore and factory reset each end with the ranking sorted, and promotion keeps a sorted ranking sorted.
- `StartCheckout` leaves the ranking and the pool equal to `CheckedOut(old, cart)`. `RestoreCustomItem` leaves them equal to `Restored(...)`. The lemmas in `CatalogRules` describe these functions: how each cart line is routed by its id, the single promotion that displaces at most the last record, and the fact that sizes and order are kept.

Behaviour of the code that the model keeps, although a reader might expect otherwise:

- The ranking's `search` and the pool's name lookups (`findByName`, `remove`) match names exactly. Only the cart matches names ignoring case; see `Array.h:84`, `Array.h:231` and `Array.h:125-135`.
- `replaceItem` does not merge a record with another record of the same name.
- `CustomItemsList::clear` keeps `nextId`.
- A restored custom item that is not ranked is added with quantity 1, once per saved purchase. A name new to the pool therefore gets a fresh id from `nextId`, not the saved `itemId` (lemma `CatalogRules.RestoreIntoPool`).
- Undo pops the pushed record and deletes the cart line with that name. After an add that merged into an existing line, undo therefore removes the whole line, not just the added quantity (lemma `GroceryApi.UndoAfterMergeRemovesWholeLine`).
- Promotion compares the challenger with the last slot only. On a ranking left out of order by increments by id, that slot need not hold the least count, and a challenger can stay in the pool although some ranked record has a smaller count (lemma `CatalogRules.UnsortedRankingKeepsChallengerOut`).
- The source has three separate first-match searches, and the model keeps them apart: the cart matches product names ignoring case (`LinkedLists.FindIndex`), the ranking matches ids (`Ranking.FindId`) and the pool matches names exactly (`CustomItems.FindName`). They differ in element type and in the comparison, and each follows its own walk in the source.
- Checkout counts a line with a custom id (-1 or at least 1000) in the pool, even when that id already belongs to a promoted record in the ranking.

## Model

| member | source | states |
|---|---|---|
| `Products.DefaultProduct` | src/core/Product.h:16-21 | The default product has name "", price 0, quantity 1 and id 0. |
| `Products.NewProduct` | src/core/Product.h:23-35 | The constructor stores each field. The quantity defaults to 1 and the id to 0. A copy keeps all four fields. |
| `Products.SetName` | src/core/Product.h:44 | Sets the name and keeps the other three fields. |
| `Products.SetPrice` | src/core/Product.h:45 | Sets the price and keeps the other three fields. |
| `Products.SetQuantity` | src/core/Product.h:46 | Sets the quantity and keeps the other three fields. |
| `Products.SetProductId` | src/core/Product.h:47 | Sets the id and keeps the other three fields. |
| `Products.Equals` | src/core/Product.h:53-59 | Every product equals itself, and two products are equal iff their names are equal, case-sensitively. |
| `Products.EqualsIsEquivalence` | src/core/Product.h:53-59 | Product equality is reflexive, symmetric and transitive. |
| `Products.EqualsIgnoresOtherFields` | src/core/Product.h:53-59 | `equals` and `operator==` hold exactly when the names are equal, case-sensitively, whatever the price, quantity and id. |
| `LinkedLists.StrEqualsIgnoreCase` | src/core/LinkedList.h:10-16 | True iff the lengths are equal and every pair of characters is equal after mapping A-Z to lower case. |
| `LinkedLists.FoldedEqualFromMeans` | src/core/LinkedList.h:12-15 | The character loop from position i succeeds iff every later pair agrees after lower-casing. |
| `LinkedLists.StrEqualsIgnoreCaseIsEquivalence` | src/core/LinkedList.h:10-16 | The case-insensitive comparison is reflexive, symmetric and transitive. |
| `LinkedLists.CartMatchingDiffersFromProductEquality` | src/core/LinkedList.h:10-16 | "Milk" and "MILK" match in the cart, but are different products under `equals`. |
| `LinkedLists.FindIndex` | src/core/LinkedList.h:57-64 | None iff no line matches ignoring case; otherwise the position of the first line that matches. |
| `LinkedLists.PushItemMerges` | src/core/LinkedList.h:109-118 | When a line matches, only the first such line changes: its quantity grows by the pushed quantity, and its name, price and id are kept. The size and order are unchanged. |
| `LinkedLists.PushItemAppends` | src/core/LinkedList.h:109-118 | When no line matches, the pushed record is appended at the tail and the size grows by one. |
| `LinkedLists.PushedKeepsNamesDistinct` | src/core/LinkedList.h:109-118 | Pushing keeps the cart free of two lines whose names are equal ignoring case. |
| `LinkedLists.RemovedAtKeepsNamesDistinct` | src/core/LinkedList.h:145-159 | Deleting a line keeps the names distinct. |
| `LinkedLists.DeletedByNameKeepsNamesDistinct` | src/core/LinkedList.h:161-181 | Deleting by name keeps the names distinct. |
| `LinkedLists.SumQuantitiesAppend` | src/core/LinkedList.h:49-55 | The quantity total of two concatenated lists is the sum of their totals. |
| `LinkedLists.PushedAddsQuantity` | src/core/LinkedList.h:109-118 | `push_item` raises the total quantity by the pushed quantity, whether it merges or appends. |
| `LinkedLists.SlotUpdateChangesSum` | src/core/LinkedList.h:111-115 | Overwriting one line, as a merge does, changes the total by the difference between the new and old quantity. |
| `LinkedLists.RemovedAtSubtractsQuantity` | src/core/LinkedList.h:145-159 | Deleting a line lowers the total quantity by that line's quantity. |
| `LinkedLists.MergeIgnoresCase` | src/core/LinkedList.h:109-118 | Pushing "milk" with quantity 2 and then "MILK" with quantity 3 gives one line "milk" with quantity 5. |
| `LinkedLists.LinkedList.constructor` | src/core/LinkedList.h:24-27 | A new list is empty and its count is 0. |
| `LinkedLists.LinkedList.Empty` | src/core/LinkedList.h:31 | True iff the count is 0. |
| `LinkedLists.LinkedList.Size` | src/core/LinkedList.h:33 | The count equals the number of lines. |
| `LinkedLists.LinkedList.Front` | src/core/LinkedList.h:35-38 | The head line, or the default product when the list is empty. |
| `LinkedLists.LinkedList.Back` | src/core/LinkedList.h:40-47 | The tail line, or the default product when the list is empty. |
| `LinkedLists.LinkedList.GetAtPosition` | src/core/LinkedList.h:66-73 | Positions are 1-indexed. Position p in [1, size] gives line p-1; any other position gives the default product. |
| `LinkedLists.LinkedList.TotalQuantity` | src/core/LinkedList.h:49-55 | The sum of the quantities of all lines. |
| `LinkedLists.LinkedList.Find` | src/core/LinkedList.h:57-64 | Returns the first case-insensitive match, or nothing. |
| `LinkedLists.LinkedList.InsertAtHead` | src/core/LinkedList.h:75-79 | The record goes in front and the count grows by one. |
| `LinkedLists.LinkedList.InsertAtTail` | src/core/LinkedList.h:81-92 | The record goes at the end and the count grows by one. |
| `LinkedLists.LinkedList.InsertAtPosition` | src/core/LinkedList.h:94-107 | A position p in [1, size+1] places the record at index p-1 and keeps the rest in order. Any other position changes nothing. |
| `LinkedLists.LinkedList.PushItem` | src/core/LinkedList.h:109-118 | The new lines are `Pushed(old, val)`: merge into the first case-insensitive match, otherwise append. |
| `LinkedLists.LinkedList.DeleteAtHead` | src/core/LinkedList.h:120-128 | Returns and removes the head line. An empty list gives the default product and stays empty. |
| `LinkedLists.LinkedList.DeleteAtTail` | src/core/LinkedList.h:130-143 | Returns and removes the tail line. An empty list gives the default product and stays empty. |
| `LinkedLists.LinkedList.DeleteAtPosition` | src/core/LinkedList.h:145-159 | A position outside [1, size] returns the default product and changes nothing. Otherwise it returns line p and removes exactly that line; the others keep their order. |
| `LinkedLists.LinkedList.DeleteByName` | src/core/LinkedList.h:161-181 | Returns true iff some line matches ignoring case. The first such line is removed; without a match the list is unchanged. |
| `LinkedLists.LinkedList.Clear` | src/core/LinkedList.h:183-187 | The list ends empty with count 0. |
| `Stacks.Stack.constructor` | src/core/Stack.h:14-17 | A new stack is empty with size 0. |
| `Stacks.Stack.Empty` | src/core/Stack.h:20 | True iff the size is 0. |
| `Stacks.Stack.Size` | src/core/Stack.h:21 | The size always equals the number of records. |
| `Stacks.Stack.Top` | src/core/Stack.h:24-27 | The newest record, or the default product when the stack is empty. |
| `Stacks.Stack.Push` | src/core/Stack.h:29-33 | The record goes on top, `Top()` returns it, and the size grows by one. |
| `Stacks.Stack.Pop` | src/core/Stack.h:35-44 | Returns the newest record and leaves the rest, so a push followed by a pop restores the stack. An empty stack returns the default product and stays empty. |
| `Stacks.Stack.Clear` | src/core/Stack.h:46-50 | The stack ends empty with size 0. |
| `Queues.Queue.constructor` | src/core/Queue.h:15-19 | A new queue is empty, with null front and rear. |
| `Queues.Queue.Empty` | src/core/Queue.h:22 | Front is null iff the queue has no records, rear is null and the size is 0. |
| `Queues.Queue.Size` | src/core/Queue.h:23 | The size always equals the number of records. |
| `Queues.Queue.Front` | src/core/Queue.h:26-29 | The oldest record, or the default product when the queue is empty. |
| `Queues.Queue.Rear` | src/core/Queue.h:31-34 | The newest record, or the default product when the queue is empty. |
| `Queues.Queue.Enqueue` | src/core/Queue.h:36-47 | The record is appended at the rear, `Rear()` returns it, and the size grows by one. |
| `Queues.Queue.Dequeue` | src/core/Queue.h:49-63 | Returns the front record; the rest keep their order. When the last record leaves, rear becomes null. An empty queue returns the default product. |
| `Queues.Queue.Clear` | src/core/Queue.h:65-69 | The queue ends empty, with null front and rear. |
| `Ranking.DefaultItem` | src/core/Array.h:18-25 | The default record has id -1, empty name and icon, price 0 and count 0, and is not custom. |
| `Ranking.MakeItem` | src/core/Array.h:27-34 | The field constructor stores the id, name, price, icon, count and custom flag as given; the count defaults to 0 and the flag to false. |
| `Ranking.DefaultItems` | src/core/Array.h:258-270 | The ten seeded records, with ids 0..9 at positions 0..9, all counts 0 and none custom. |
| `Ranking.LastItem` | src/core/Array.h:253-256 | The last record, or the default record for an empty ranking. |
| `Ranking.FindId` | src/core/Array.h:219-227 | None iff no record has the id; otherwise the position of the first record that has it. |
| `Ranking.ReplacedOverwritesOneSlot` | src/core/Array.h:273-277 | An out-of-range index changes nothing. An index in range overwrites only that slot, with the given id, name and count, marked custom. The size is unchanged. |
| `Ranking.AddedToIdChangesOnlyOneCount` | src/core/Array.h:219-227 | Only the first record with the id gets the added count, and none of its other fields change. No other record changes. An absent id changes nothing. |
| `Ranking.FirstIdAt` | src/core/Array.h:219-227 | If record k has the id and no earlier record does, the search by id finds k. |
| `Ranking.AddedToIdAt` | src/core/Array.h:219-227 | Adding to an id whose first record is at position k changes slot k only, by the amount. |
| `Ranking.AddedToIdTwice` | src/core/Array.h:219-227 | Adding m to an id and then n is the same as adding m+n, so k single increments add k. |
| `Ranking.SwapKeepsTieOrder` | src/core/Array.h:197-201 | Swapping two neighbours with different counts does not reorder any group of equal counts. |
| `Ranking.SwapPairTieOrder` | src/core/Array.h:197-201 | Exchanging a front pair with different counts leaves every tie group of the sequence unchanged. |
| `Ranking.InsertByCountBounded` | src/core/Array.h:194-204 | Inserting into the stable order never produces a count above a bound that all inputs respect. |
| `Ranking.ByFrequencySorted` | src/core/Array.h:194-204 | The ranking order is sorted by count, highest first. |
| `Ranking.ByFrequencyPermutes` | src/core/Array.h:194-204 | The ranking order is a permutation: each record, with its id attached to its own fields, occurs as often as before. |
| `Ranking.ByFrequencyTieOrder` | src/core/Array.h:194-204 | Records with equal counts keep their relative order. |
| `Ranking.SortedTieOrderUnique` | src/core/Array.h:194-204 | Two sorted sequences with the same tie order are equal. |
| `Ranking.ByFrequencyCharacterized` | src/core/Array.h:194-204 | A sequence equals `ByFrequency(s)` iff it is sorted and has the tie order of s. |
| `Ranking.ByFrequencyOfSorted` | src/core/Array.h:194-204 | Sorting an already sorted ranking changes nothing. |
| `Ranking.ByFrequencyIdempotent` | src/core/Array.h:194-204 | Sorting twice is the same as sorting once. |
| `Ranking.LastIsLeastAfterSort` | src/core/Array.h:253-256 | After the sort, the last record has the smallest count. |
| `Ranking.DefaultItemsRanked` | src/core/Array.h:258-271 | Sorting the seeded records, all with count 0, keeps their seeded order. |
| `Ranking.DefaultItemsSorted` | src/core/Array.h:258-271 | The ten seeded records are already in ranking order, since all counts are 0. |
| `FrequentItems.FrequentItemsArray.constructor` | src/core/Array.h:158-170 | A new array holds exactly the ten seeded records, in seeded order. |
| `FrequentItems.FrequentItemsArray.GetItem` | src/core/Array.h:172-181 | An index in [0, size) gives that record; any other index gives the default record. |
| `FrequentItems.FrequentItemsArray.Size` | src/core/Array.h:183 | The size is the number of records held, between 0 and 10. |
| `FrequentItems.FrequentItemsArray.IsEmpty` | src/core/Array.h:185 | True iff no record is held. |
| `FrequentItems.FrequentItemsArray.IsFull` | src/core/Array.h:184 | True iff ten slots are in use. |
| `FrequentItems.FrequentItemsArray.GetLastItem` | src/core/Array.h:253-256 | The last used record, or the default record (id -1, count 0, not custom) when the array is empty. |
| `FrequentItems.FrequentItemsArray.AddItem` | src/core/Array.h:187-192 | Returns true iff fewer than ten slots were in use, and then appends the record. A full array returns false and is unchanged, so the size never exceeds ten. |
| `FrequentItems.FrequentItemsArray.SortByFrequency` | src/core/Array.h:194-204 | The in-place bubble sort leaves exactly `ByFrequency` of the old contents. |
| `FrequentItems.FrequentItemsArray.BubblePass` | src/core/Array.h:196-203 | One inner pass over [0, last] sinks a smallest count of that range to `last`. It keeps the tie order, the sorted suffix, and the fact that every count in the range is at least every count after it. |
| `FrequentItems.FrequentItemsArray.SwapNeighbours` | src/core/Array.h:197-201 | Slots j and j+1 trade places and no other slot changes. The tie order of the used prefix is kept. |
| `FrequentItems.FrequentItemsArray.IncrementPurchaseCount` | src/core/Array.h:206-210 | An index in range gets +1 on its count; any other index changes nothing. |
| `FrequentItems.FrequentItemsArray.GetPurchaseCount` | src/core/Array.h:212-217 | The count at an index in range, otherwise 0. |
| `FrequentItems.FrequentItemsArray.IncrementPurchaseCountById` | src/core/Array.h:219-227 | Returns true iff the id is present. The contents become `AddedToId(old, id, 1)`: the first record with the id gets +1, nothing else changes, and nothing is re-sorted. |
| `FrequentItems.FrequentItemsArray.Search` | src/core/Array.h:229-234 | Returns -1 iff no record has exactly this name; otherwise the first position with that name. |
| `FrequentItems.FrequentItemsArray.GetMinPurchaseIndex` | src/core/Array.h:236-245 | Returns -1 on an empty array; otherwise the first position of the smallest count. |
| `FrequentItems.FrequentItemsArray.GetMinPurchaseCount` | src/core/Array.h:247-251 | Returns 0 on an empty array; otherwise a count that occurs and is at most every count. |
| `FrequentItems.FrequentItemsArray.ResetToDefaults` | src/core/Array.h:258-271 | Afterwards the contents are exactly the ten seeded records: ids 0..9 in seeded order, counts 0, none custom. |
| `FrequentItems.FrequentItemsArray.ReplaceItem` | src/core/Array.h:273-277 | Returns true iff the index is in [0, size). The contents become `Replaced(old, ...)`. |
| `FrequentItems.FrequentItemsArray.GetNextId` | src/core/Array.h:279-285 | At least 1, greater than every id in use, and either 1 or one more than an id in use. |
| `CustomItems.EmptyPool` | src/core/Array.h:64-68 | A new pool has no nodes and its counter at 1000. |
| `CustomItems.FindName` | src/core/Array.h:81-88 | None iff no node has exactly this name; otherwise the first node that has it. |
| `CustomItems.FirstNameAt` | src/core/Array.h:81-88 | If node k has the name and no earlier node does, the search finds k. |
| `CustomItems.HighestFrom` | src/core/Array.h:110-119 | Continuing the walk from any prefix whose first maximum is known yields the first maximum of the whole pool. |
| `CustomItems.HighestIndex` | src/core/Array.h:107-120 | None iff the pool is empty; otherwise the first node from the head with the largest count. |
| `CustomItems.FirstMaxUnique` | src/core/Array.h:107-120 | The first node with the largest count is unique. |
| `CustomItems.EmptyPoolWellFormed` | src/core/Array.h:64-68 | The empty pool is well formed. |
| `CustomItems.AddOrUpdateExisting` | src/core/Array.h:90-96 | For an existing name, only that node's count grows (by the quantity) and its id is returned. The size and the counter stay. |
| `CustomItems.AddOrUpdateNew` | src/core/Array.h:98-104 | For a new name, a node with id `nextId` and count equal to the quantity is prepended, that id is returned, and the size and the counter grow by one. |
| `CustomItems.AddedOrUpdatedCounts` | src/core/Array.h:90-105 | The name's count grows by the quantity; every other name's count is unchanged. |
| `CustomItems.AddedOrUpdatedOwnCount` | src/core/Array.h:90-105 | The name's count grows by the quantity, whether the node existed or is new. |
| `CustomItems.AddedOrUpdatedOtherCount` | src/core/Array.h:90-105 | The count of any other name is unchanged. |
| `CustomItems.AddedOrUpdatedKeepsWellFormed` | src/core/Array.h:90-105 | `addOrUpdate` keeps one node per name, distinct ids, and ids in [1000, `nextId`). |
| `CustomItems.RemovedByNameKeepsWellFormed` | src/core/Array.h:122-145 | `remove` keeps the pool well formed. |
| `CustomItems.RemovedByNameShape` | src/core/Array.h:122-145 | A present name removes one node, and the others keep their order. An absent name changes nothing. |
| `CustomItems.RemoveOwnName` | src/core/Array.h:122-145 | In a well-formed pool, removing a node's own name removes exactly that node, and the name is then absent. |
| `CustomItems.AddedOrUpdatedTwice` | src/core/Array.h:90-105 | Adding m and then n to a name is the same as adding m+n. |
| `CustomItems.AddedRepeatedlyIsOneAdd` | src/core/Array.h:90-105 | For n ≥ 1, n adds with quantity 1 are the same as one add with quantity n. |
| `CustomItems.CustomItemsList.constructor` | src/core/Array.h:64-68 | A new list is empty, with count 0 and counter 1000. |
| `CustomItems.CustomItemsList.Size` | src/core/Array.h:147 | The count equals the number of nodes. |
| `CustomItems.CustomItemsList.IsEmpty` | src/core/Array.h:148 | True iff there are no nodes. |
| `CustomItems.CustomItemsList.Clear` | src/core/Array.h:72-79 | The list ends empty with count 0. `nextId` is kept. |
| `CustomItems.CustomItemsList.FindByName` | src/core/Array.h:81-88 | Returns the first node with exactly this name, or nothing. |
| `CustomItems.CustomItemsList.AddOrUpdate` | src/core/Array.h:90-105 | The pool becomes `AddedOrUpdated(old, ...)`, the result is that node's id, and the pool stays well formed. |
| `CustomItems.CustomItemsList.GetHighestPurchaseItem` | src/core/Array.h:107-120 | Returns nothing iff the pool is empty; otherwise the first node from the head with the largest count. |
| `CustomItems.CustomItemsList.Remove` | src/core/Array.h:122-145 | Returns true iff some node has exactly this name. That node is unlinked and the count drops by one. Without a match the list is unchanged. |
| `CatalogRules.Repeats` | src/grocery_api.cpp:358 | A count loop runs n times for n ≥ 0 and not at all for n < 0. |
| `CatalogRules.PromotionHappensOnlyOnLargerCount` | src/grocery_api.cpp:304-335 | Promotion changes nothing on an empty pool, or when no node's count is strictly larger than the last record's. When it does change something, the challenger is the first node with the largest count. |
| `CatalogRules.PromotionDisplacesLast` | src/grocery_api.cpp:315-334 | A winning challenger replaces exactly the last record, as a custom record with its id, name and count. The ranking keeps its size and is sorted again. The challenger leaves the pool, and the counter is unchanged. |
| `CatalogRules.PromotedKeepsShape` | src/grocery_api.cpp:304-335 | Promotion keeps the ranking's size, keeps a sorted ranking sorted, and keeps the pool well formed. |
| `CatalogRules.CountLineRoutes` | src/grocery_api.cpp:350-361 | An id of -1 or at least 1000 raises the name's count in the pool by the line's quantity and leaves the ranking. Any other id raises the first record with that id by the quantity (nothing if there is no such record) and leaves the pool. |
| `CatalogRules.CountLinesKeepsShape` | src/grocery_api.cpp:345-364 | Counting the cart lines keeps the ranking's size and keeps the pool well formed. |
| `CatalogRules.CheckedOutShape` | src/grocery_api.cpp:341-375 | After checkout the ranking has its old size, is sorted by count, and the pool is well formed. |
| `CatalogRules.RestoredShape` | src/grocery_api.cpp:459-488 | After a restore the ranking has its old size, is sorted by count, and the pool is well formed. |
| `CatalogRules.AddedRepeatedlyKeepsWellFormed` | src/grocery_api.cpp:478-480 | The repeated single adds of a restore keep the pool well formed. |
| `CatalogRules.RestoreIntoPool` | src/grocery_api.cpp:476-480 | For an id that is not ranked, the name's pool count grows by the saved count. A new name gets the counter's next id, not the saved id. |
| `CatalogRules.RestoreIntoRanking` | src/grocery_api.cpp:462-473 | For an id that is ranked, the pool is unchanged and the ranking is a permutation of the old one with that record raised by the saved count. |
| `CatalogRules.RaisedLastDefault` | src/core/Array.h:219-227 | Raising id 9 in the seeded ranking changes only the last record's count. |
| `CatalogRules.KaleRestoredIntoEmptyPool` | src/grocery_api.cpp:478-480 | Four unit adds of a new name to the empty pool give one node with count 4 and id 1000. |
| `CatalogRules.UnsortedRankingKeepsChallengerOut` | src/grocery_api.cpp:304-335 | One increment of record 9 leaves the seeded ranking out of order. Restoring "Kale" with 4 purchases next to record 9 raised ten times leaves Kale in the pool, although record 0 has count 0. |
| `GroceryApi.UndoAfterAppendRestoresCart` | src/grocery_api.cpp:138-144 | An add that appended a line, followed by an undo, gives back the old cart. |
| `GroceryApi.UndoAfterMergeRemovesWholeLine` | src/grocery_api.cpp:224-233 | An add that merged into a line, followed by an undo, removes that whole line. |
| `GroceryApi.Session.constructor` | src/grocery_api.cpp:47-51 | At start the ranking holds the ten defaults, in ranking order, and the pool, cart, stack and queue are empty. |
| `GroceryApi.Session.IncrementPurchaseCountById` | src/grocery_api.cpp:127-129 | The first record with the id gains 1 and nothing else changes; an absent id changes nothing. The ranking is not sorted again, and the session stays valid. |
| `GroceryApi.Session.AddToCart` | src/grocery_api.cpp:138-144 | The cart becomes `Pushed(old, product)` (merge or append), and exactly one record is pushed onto the undo stack, even when the line merged. |
| `GroceryApi.Session.RemoveFromCart` | src/grocery_api.cpp:149-150 | A position outside [1, size] returns the default product and leaves the cart unchanged. Otherwise line p is returned and removed. |
| `GroceryApi.Session.UndoLastAction` | src/grocery_api.cpp:224-233 | An empty stack gives the "nothing to undo" outcome and changes nothing. Otherwise the newest record is popped and returned, and the first cart line that matches its name ignoring case is removed. |
| `GroceryApi.Session.CheckAndPromoteCustomItems` | src/grocery_api.cpp:304-335 | The ranking and the pool become `Promoted(old)`, and the session stays valid. A ranking in ranking order stays in ranking order. |
| `GroceryApi.Session.StartCheckout` | src/grocery_api.cpp:341-375 | Every cart line is enqueued in cart order. The ranking and the pool become `CheckedOut(old, cart)`, and the ranking ends in ranking order whatever order it started in. The cart and the undo stack end empty. |
| `GroceryApi.Session.EnqueueAndCountLines` | src/grocery_api.cpp:343-364 | The walk over the cart enqueues every line in cart order, and the ranking and the pool become `CountLines(old, cart)`. |
| `GroceryApi.Session.CountCheckoutLine` | src/grocery_api.cpp:350-361 | One checked-out line changes the ranking and the pool to `CountLine(old, line)`. |
| `GroceryApi.Session.RaiseCount` | src/grocery_api.cpp:358-360 | n single increments by id raise the first record with that id by n (by nothing for n ≤ 0). |
| `GroceryApi.Session.AddToPool` | src/grocery_api.cpp:478-480 | n calls to `addOrUpdate` with quantity 1 give `AddedRepeatedly(old, name, price, n)`. |
| `GroceryApi.Session.ProcessCheckout` | src/grocery_api.cpp:395-406 | The receipt lists the queued records in enqueue order, and the queue ends empty. |
| `GroceryApi.Session.RestoreCustomItem` | src/grocery_api.cpp:459-488 | The ranking and the pool become `Restored(old, name, price, count, id)`, and the ranking ends in ranking order whatever order it started in. |
| `GroceryApi.Session.ResetAll` | src/grocery_api.cpp:497-502 | The cart, stack, queue and pool end empty. The ranking and the pool's counter are kept. |
| `GroceryApi.Session.FactoryReset` | src/grocery_api.cpp:508-514 | As `ResetAll`, and the ranking is again exactly the ten defaults with count 0, in ranking order. |

## Left out

- Floating-point money is not modelled: `Product::total`, `Queue::calculate_total`, and the subtotal, 8% tax and 5% discount of `api_process_checkout`. Prices are kept as `real` fields and never used in arithmetic.
- `api_get_cart_total` is not modelled: it calls `LinkedList::calculate_total`, which `src/core/LinkedList.h` does not define.
- JSON building and C-string ownership are not modelled: `string_to_cstr`, `api_free_string`, every `api_get_*` serialiser, and the JSON text returned by remove, undo and process-checkout. Each modelled operation returns the records that text is built from.
- The one-line wrappers over operations that are modelled are not separately modelled: `api_get_frequent_items_count`, `api_get_cart_size`, `api_is_cart_empty`, `api_clear_cart`, `api_get_undo_stack_size`, `api_is_undo_stack_empty`, `api_clear_undo_stack` and `api_get_queue_size`.
- Console output (`display`, `traverse`, `display_visual`) is not modelled.
- Node.h, `new`/`delete` and the destructors are not modelled. The node chains are sequences, so aliasing between nodes is not modelled.
- The pointer accessors `head()`, `top_node()`, `front_node()` and `getHead()` are not modelled separately. Each structure's `items` or `nodes` sequence is what they expose.
- A pointer walk to a known position is written as indexing. This covers `back`, `insert_at_tail`, `get_at_position`, the positional insert and delete, and the field reads through the pointer that `getHighestPurchaseItem` returns.
- `FrequentItems.FrequentItemsArray.ResetToDefaults`: the ten `addItem` calls are written as one loop over `DefaultItems()`, which holds the same ten records in the same order.
- C++ `int` overflow is not modelled: counts, ids and quantities are unbounded integers.
- Strings are sequences of Unicode characters, not bytes. `tolower` is modelled for ASCII A-Z only, as in the C locale.
- src/grocery_api_new.cpp, src/server.py and the web client are not part of this model.
