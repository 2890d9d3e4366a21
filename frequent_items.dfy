/**
 * `FrequentItemsArray` of src/core/Array.h: a fixed array of ten records and the
 * number of slots in use. `Contents()` is the used prefix `items[0 .. current_size)`.
 */
module FrequentItems {

  import opened Ranking

  class FrequentItemsArray {
    const items: array<FrequentItem>
    var currentSize: int

    ghost predicate Valid()
      reads this
    {
      items.Length == MaxFrequentItems && 0 <= currentSize <= MaxFrequentItems
    }

    function Contents(): (s: seq<FrequentItem>)
      reads this, items
      requires Valid()
      ensures |s| == currentSize <= MaxFrequentItems
    {
      items[..currentSize]
    }

    /** The constructor seeds the ten defaults and sorts them; they keep their
        seeded order because all counts are zero. */
    constructor ()
      ensures Valid() && fresh(items)
      ensures Contents() == DefaultItems()
    {
      items := new FrequentItem[MaxFrequentItems](_ => DefaultItem());
      currentSize := 0;
      new;
      ResetToDefaults();
    }

    /** `getItem` and `operator[]`: the record at an index in [0, size), otherwise
        the default record. */
    function GetItem(index: int): (r: FrequentItem)
      reads this, items
      requires Valid()
      ensures 0 <= index < |Contents()| ==> r == Contents()[index]
      ensures !(0 <= index < |Contents()|) ==> r == DefaultItem() && r.id == -1 && r.purchaseCount == 0
    {
      if index < 0 || index >= currentSize then DefaultItem() else items[index]
    }

    function Size(): (n: int)
      reads this, items
      requires Valid()
      ensures n == |Contents()| && 0 <= n <= MaxFrequentItems
    {
      currentSize
    }

    function IsFull(): (r: bool)
      reads this
      requires Valid()
      ensures r <==> currentSize == MaxFrequentItems
    {
      currentSize >= MaxFrequentItems
    }

    function IsEmpty(): (r: bool)
      reads this, items
      requires Valid()
      ensures r <==> Contents() == []
    {
      currentSize == 0
    }

    /** `getLastItem`: the last used slot, or the default record when empty. */
    function GetLastItem(): (r: FrequentItem)
      reads this, items
      requires Valid()
      ensures r == LastItem(Contents())
      ensures currentSize == 0 ==> r.id == -1 && r.purchaseCount == 0 && !r.isCustom
    {
      if currentSize == 0 then DefaultItem() else items[currentSize - 1]
    }

    /** `addItem`: fails and changes nothing when the array is full; otherwise
        appends a non-custom record. The size never exceeds ten. */
    method AddItem(id: int, name: string, price: real, icon: string, purchaseCount: int := 0)
      returns (added: bool)
      requires Valid()
      modifies this, items
      ensures Valid()
      ensures added <==> old(currentSize) < MaxFrequentItems
      ensures added ==> Contents() == old(Contents()) + [MakeItem(id, name, price, icon, purchaseCount)]
      ensures !added ==> Contents() == old(Contents())
    {
      if IsFull() {
        return false;
      }
      items[currentSize] := MakeItem(id, name, price, icon, purchaseCount);
      currentSize := currentSize + 1;
      return true;
    }

    /** `sortByFrequency`: bubble sort that swaps neighbours only when the left
        count is strictly smaller. The result is the stable order by count. */
    method SortByFrequency()
      requires Valid()
      modifies items
      ensures Valid()
      ensures Contents() == ByFrequency(old(Contents()))
    {
      var n := currentSize;
      var i := 0;
      while i < n - 1
        invariant 0 <= i <= (if n > 0 then n - 1 else 0)
        invariant SameTieOrder(items[..n], old(items[..n]))
        invariant forall p, q :: n - i <= p < q < n ==> items[p].purchaseCount >= items[q].purchaseCount
        invariant forall p, q :: 0 <= p < n - i <= q < n ==> items[p].purchaseCount >= items[q].purchaseCount
      {
        BubblePass(n - i - 1);
        i := i + 1;
      }
      assert SortedDesc(items[..n]);
      ByFrequencyCharacterized(old(items[..n]), items[..n]);
    }

    /** One pass of the inner loop of `sortByFrequency` over positions [0, last]:
        it sinks a smallest count of that range to `last` and keeps the tie
        order and the sorted suffix behind it. */
    method BubblePass(last: int)
      requires Valid() && 0 <= last < currentSize
      requires forall p, q :: last < p < q < currentSize ==> items[p].purchaseCount >= items[q].purchaseCount
      requires forall p, q :: 0 <= p <= last < q < currentSize ==> items[p].purchaseCount >= items[q].purchaseCount
      modifies items
      ensures Valid()
      ensures SameTieOrder(items[..currentSize], old(items[..currentSize]))
      ensures forall p :: 0 <= p <= last ==> items[p].purchaseCount >= items[last].purchaseCount
      ensures forall p, q :: last <= p < q < currentSize ==> items[p].purchaseCount >= items[q].purchaseCount
      ensures forall p, q :: 0 <= p <= last < q < currentSize ==> items[p].purchaseCount >= items[q].purchaseCount
    {
      var n := currentSize;
      var j := 0;
      while j < last
        invariant 0 <= j <= last
        invariant SameTieOrder(items[..n], old(items[..n]))
        invariant forall p :: 0 <= p < j ==> items[p].purchaseCount >= items[j].purchaseCount
        invariant forall q :: last < q < n ==> items[q] == old(items[q])
        invariant forall p, q :: 0 <= p <= last < q < n ==> items[p].purchaseCount >= items[q].purchaseCount
      {
        if items[j].purchaseCount < items[j + 1].purchaseCount {
          SwapNeighbours(j);
        }
        j := j + 1;
      }
    }

    /** The exchange in the inner loop of `sortByFrequency`: slots `j` and
        `j + 1`, whose counts differ, trade places; tie groups keep their order. */
    method SwapNeighbours(j: int)
      requires Valid() && 0 <= j && j + 1 < currentSize
      requires items[j].purchaseCount != items[j + 1].purchaseCount
      modifies items
      ensures Valid()
      ensures items[j] == old(items[j + 1]) && items[j + 1] == old(items[j])
      ensures forall q :: 0 <= q < items.Length && q != j && q != j + 1 ==> items[q] == old(items[q])
      ensures SameTieOrder(items[..currentSize], old(items[..currentSize]))
    {
      ghost var before := items[..currentSize];
      items[j], items[j + 1] := items[j + 1], items[j];
      assert items[..currentSize] == before[j := before[j + 1]][j + 1 := before[j]];
      SwapKeepsTieOrder(before, j);
    }

    /** `incrementPurchaseCount`: +1 at an index in range, otherwise nothing. */
    method IncrementPurchaseCount(index: int)
      requires Valid()
      modifies items
      ensures Valid()
      ensures 0 <= index < currentSize ==>
                Contents() == old(Contents())[index := old(Contents())[index].(purchaseCount := old(Contents())[index].purchaseCount + 1)]
      ensures !(0 <= index < currentSize) ==> Contents() == old(Contents())
    {
      if index >= 0 && index < currentSize {
        items[index] := items[index].(purchaseCount := items[index].purchaseCount + 1);
      }
    }

    /** `getPurchaseCount`: the count at an index in range, otherwise 0. */
    function GetPurchaseCount(index: int): (c: int)
      reads this, items
      requires Valid()
      ensures c == GetItem(index).purchaseCount
    {
      if index >= 0 && index < currentSize then items[index].purchaseCount else 0
    }

    /** `incrementPurchaseCountById`: +1 on the first record with that id and no
        re-sort; false and no change when the id is absent. */
    method IncrementPurchaseCountById(itemId: int) returns (found: bool)
      requires Valid()
      modifies items
      ensures Valid()
      ensures found <==> FindId(old(Contents()), itemId).Some?
      ensures Contents() == AddedToId(old(Contents()), itemId, 1)
    {
      var i := 0;
      while i < currentSize
        invariant 0 <= i <= currentSize
        invariant forall j :: 0 <= j < i ==> items[j].id != itemId
        invariant items[..currentSize] == old(items[..currentSize])
      {
        if items[i].id == itemId {
          items[i] := items[i].(purchaseCount := items[i].purchaseCount + 1);
          return true;
        }
        i := i + 1;
      }
      return false;
    }

    /** `search`: position of the first record whose name is exactly `name`, or -1. */
    method Search(name: string) returns (index: int)
      requires Valid()
      ensures -1 <= index < currentSize
      ensures index == -1 <==> forall j :: 0 <= j < currentSize ==> items[j].name != name
      ensures index >= 0 ==> items[index].name == name && forall j :: 0 <= j < index ==> items[j].name != name
    {
      var i := 0;
      while i < currentSize
        invariant 0 <= i <= currentSize
        invariant forall j :: 0 <= j < i ==> items[j].name != name
      {
        if items[i].name == name {
          return i;
        }
        i := i + 1;
      }
      return -1;
    }

    /** `getMinPurchaseIndex`: -1 when empty, otherwise the first position of the
        smallest count. */
    method GetMinPurchaseIndex() returns (minIndex: int)
      requires Valid()
      ensures currentSize == 0 ==> minIndex == -1
      ensures currentSize > 0 ==> 0 <= minIndex < currentSize
      ensures currentSize > 0 ==> forall j :: 0 <= j < currentSize ==> items[minIndex].purchaseCount <= items[j].purchaseCount
      ensures currentSize > 0 ==> forall j :: 0 <= j < minIndex ==> items[j].purchaseCount > items[minIndex].purchaseCount
    {
      if currentSize == 0 {
        return -1;
      }
      minIndex := 0;
      var i := 1;
      while i < currentSize
        invariant 1 <= i <= currentSize
        invariant 0 <= minIndex < i
        invariant forall j :: 0 <= j < i ==> items[minIndex].purchaseCount <= items[j].purchaseCount
        invariant forall j :: 0 <= j < minIndex ==> items[j].purchaseCount > items[minIndex].purchaseCount
      {
        if items[i].purchaseCount < items[minIndex].purchaseCount {
          minIndex := i;
        }
        i := i + 1;
      }
    }

    /** `getMinPurchaseCount`: the smallest count, or 0 when empty. */
    method GetMinPurchaseCount() returns (count: int)
      requires Valid()
      ensures currentSize == 0 ==> count == 0
      ensures currentSize > 0 ==> (exists j :: 0 <= j < currentSize && items[j].purchaseCount == count)
      ensures forall j :: 0 <= j < currentSize ==> count <= items[j].purchaseCount
    {
      var minIndex := GetMinPurchaseIndex();
      if minIndex == -1 {
        return 0;
      }
      return items[minIndex].purchaseCount;
    }

    /** `resetToDefaults`: empties the array, re-adds the ten defaults in their
        seeded order (the source's ten `addItem` calls, one per element of
        `DefaultItems()`) and sorts; the result is exactly the seeded list. */
    method ResetToDefaults()
      requires Valid()
      modifies this, items
      ensures Valid()
      ensures Contents() == DefaultItems()
    {
      currentSize := 0;
      var defaults := DefaultItems();
      var k := 0;
      while k < |defaults|
        invariant 0 <= k <= |defaults|
        invariant Valid() && currentSize == k
        invariant Contents() == defaults[..k]
      {
        var d := defaults[k];
        var _ := AddItem(d.id, d.name, d.price, d.icon, d.purchaseCount);
        assert defaults[..k + 1] == defaults[..k] + [d];
        k := k + 1;
      }
      assert defaults[..k] == defaults;
      SortByFrequency();
      DefaultItemsRanked();
    }

    /** `replaceItem`: an index outside [0, size) returns false and changes
        nothing; otherwise only that slot is overwritten, with the given id, name
        and count and marked custom. No merging with a record of the same name. */
    method ReplaceItem(index: int, newId: int, name: string, price: real, icon: string, purchaseCount: int)
      returns (replaced: bool)
      requires Valid()
      modifies items
      ensures Valid()
      ensures replaced <==> 0 <= index < currentSize
      ensures Contents() == Replaced(old(Contents()), index, newId, name, price, icon, purchaseCount)
    {
      if index < 0 || index >= currentSize {
        return false;
      }
      items[index] := MakeItem(newId, name, price, icon, purchaseCount, true);
      return true;
    }

    /** `getNextId`: one more than the largest id in use, counting from a maximum of 0. */
    method GetNextId() returns (next: int)
      requires Valid()
      ensures next >= 1
      ensures forall j :: 0 <= j < currentSize ==> items[j].id < next
      ensures next == 1 || exists j :: 0 <= j < currentSize && items[j].id == next - 1
    {
      var maxId := 0;
      var i := 0;
      while i < currentSize
        invariant 0 <= i <= currentSize
        invariant maxId >= 0
        invariant forall j :: 0 <= j < i ==> items[j].id <= maxId
        invariant maxId == 0 || exists j :: 0 <= j < i && items[j].id == maxId
      {
        if items[i].id > maxId {
          maxId := items[i].id;
        }
        i := i + 1;
      }
      return maxId + 1;
    }
  }
}
