/**
 * The shopping cart of src/core/LinkedList.h: an ordered list of product lines.
 *
 * The chain of nodes from `list_head` is the sequence `items` (head first), and
 * `item_count` is kept beside it as the source does. Pointer walks that only
 * reach a known position (the tail, the p-th node) become direct indexing;
 * the loops that search, sum or empty the list are kept as loops.
 */
module LinkedLists {

  import opened Options
  import opened Products

  /** C `tolower` in the default locale: only 'A'..'Z' are mapped. */
  function ToLower(c: char): char
  {
    if 'A' <= c <= 'Z' then (c as int + 32) as char else c
  }

  /** The loop of `strEqualsIgnoreCase` from index i on: stops at the first pair
      of characters that differ after lower-casing. */
  function FoldedEqualFrom(a: string, b: string, i: nat): bool
    requires |a| == |b| && i <= |a|
    decreases |a| - i
  {
    i == |a| || (ToLower(a[i]) == ToLower(b[i]) && FoldedEqualFrom(a, b, i + 1))
  }

  lemma {:induction false} FoldedEqualFromMeans(a: string, b: string, i: nat)
    requires |a| == |b| && i <= |a|
    ensures FoldedEqualFrom(a, b, i) <==> forall j :: i <= j < |a| ==> ToLower(a[j]) == ToLower(b[j])
    decreases |a| - i
  {
    if i < |a| {
      FoldedEqualFromMeans(a, b, i + 1);
    }
  }

  /** `strEqualsIgnoreCase`: equal lengths and equal characters after `tolower`. */
  function StrEqualsIgnoreCase(a: string, b: string): (r: bool)
    ensures r <==> |a| == |b| && forall j :: 0 <= j < |a| ==> ToLower(a[j]) == ToLower(b[j])
  {
    if |a| != |b| then false
    else
      FoldedEqualFromMeans(a, b, 0);
      FoldedEqualFrom(a, b, 0)
  }

  /** Case-insensitive name equality is an equivalence relation. */
  lemma StrEqualsIgnoreCaseIsEquivalence(a: string, b: string, c: string)
    ensures StrEqualsIgnoreCase(a, a)
    ensures StrEqualsIgnoreCase(a, b) <==> StrEqualsIgnoreCase(b, a)
    ensures StrEqualsIgnoreCase(a, b) && StrEqualsIgnoreCase(b, c) ==> StrEqualsIgnoreCase(a, c)
  {
  }

  /** The cart matches names ignoring case, while `Product::equals` does not. */
  lemma CartMatchingDiffersFromProductEquality()
    ensures StrEqualsIgnoreCase("Milk", "MILK")
    ensures !Equals(Product("Milk", 80.0, 1, 0), Product("MILK", 80.0, 1, 0))
  {
    assert ToLower('M') == 'm' && ToLower('I') == 'i' && ToLower('L') == 'l' && ToLower('K') == 'k';
  }

  predicate Matches(line: Product, name: string)
  {
    StrEqualsIgnoreCase(line.name, name)
  }

  /** The node `find` returns, as its position: the first line whose name
      equals `name` ignoring case, or None. */
  function FindIndex(s: seq<Product>, name: string): (r: Option<nat>)
    ensures r.None? <==> forall j :: 0 <= j < |s| ==> !Matches(s[j], name)
    ensures r.Some? ==> r.value < |s| && Matches(s[r.value], name)
    ensures r.Some? ==> forall j :: 0 <= j < r.value ==> !Matches(s[j], name)
  {
    if s == [] then None
    else if Matches(s[0], name) then Some(0)
    else
      match FindIndex(s[1..], name)
      case None =>
        assert forall j :: 1 <= j < |s| ==> s[j] == s[1..][j - 1];
        None
      case Some(k) =>
        assert forall j :: 1 <= j <= k ==> s[j] == s[1..][j - 1];
        Some(k + 1)
  }

  /** The list after `push_item(val)`: the first case-insensitive match gets
      `val`'s quantity added, otherwise `val` is appended. */
  function Pushed(s: seq<Product>, val: Product): seq<Product>
  {
    match FindIndex(s, val.name)
    case Some(k) => s[k := SetQuantity(s[k], s[k].quantity + val.quantity)]
    case None => s + [val]
  }

  function RemovedAt(s: seq<Product>, k: nat): seq<Product>
    requires k < |s|
  {
    s[..k] + s[k + 1..]
  }

  /** The list after `delete_by_name(name)`: the first case-insensitive match is unlinked. */
  function DeletedByName(s: seq<Product>, name: string): seq<Product>
  {
    match FindIndex(s, name)
    case Some(k) => RemovedAt(s, k)
    case None => s
  }

  /** Sum of the quantities, head to tail. */
  function SumQuantities(s: seq<Product>): int
  {
    if s == [] then 0 else SumQuantities(s[..|s| - 1]) + s[|s| - 1].quantity
  }

  /** No two lines whose names are equal ignoring case. */
  ghost predicate NamesDistinct(s: seq<Product>)
  {
    forall i, j :: 0 <= i < j < |s| ==> !StrEqualsIgnoreCase(s[i].name, s[j].name)
  }

  /** `push_item` on a name already present merges into the first match: that
      line's quantity grows by `val`'s, its name, price and id are kept, and the
      length and every other line stay as they were. */
  lemma PushItemMerges(s: seq<Product>, val: Product, k: nat)
    requires k < |s| && Matches(s[k], val.name)
    requires forall j :: 0 <= j < k ==> !Matches(s[j], val.name)
    ensures |Pushed(s, val)| == |s|
    ensures Pushed(s, val)[k].quantity == s[k].quantity + val.quantity
    ensures Pushed(s, val)[k].name == s[k].name && Pushed(s, val)[k].price == s[k].price
    ensures Pushed(s, val)[k].productId == s[k].productId
    ensures forall j :: 0 <= j < |s| && j != k ==> Pushed(s, val)[j] == s[j]
  {
  }

  /** `push_item` on a new name appends `val` at the tail. */
  lemma PushItemAppends(s: seq<Product>, val: Product)
    requires forall j :: 0 <= j < |s| ==> !Matches(s[j], val.name)
    ensures Pushed(s, val) == s + [val]
    ensures |Pushed(s, val)| == |s| + 1
  {
  }

  /** A list that only grows by `push_item` never holds two lines whose names are
      equal ignoring case. */
  lemma PushedKeepsNamesDistinct(s: seq<Product>, val: Product)
    requires NamesDistinct(s)
    ensures NamesDistinct(Pushed(s, val))
  {
    match FindIndex(s, val.name)
    case Some(k) =>
      var r := Pushed(s, val);
      assert forall j :: 0 <= j < |r| ==> r[j].name == s[j].name;
    case None =>
      var r := s + [val];
      forall i, j | 0 <= i < j < |r|
        ensures !StrEqualsIgnoreCase(r[i].name, r[j].name)
      {
        if j == |s| {
          assert !Matches(s[i], val.name);
        }
      }
  }

  /** Removing one line keeps the names distinct and the others in order. */
  lemma RemovedAtKeepsNamesDistinct(s: seq<Product>, k: nat)
    requires k < |s| && NamesDistinct(s)
    ensures NamesDistinct(RemovedAt(s, k))
  {
    var r := RemovedAt(s, k);
    assert forall j :: 0 <= j < |r| ==> r[j] == (if j < k then s[j] else s[j + 1]);
  }

  lemma DeletedByNameKeepsNamesDistinct(s: seq<Product>, name: string)
    requires NamesDistinct(s)
    ensures NamesDistinct(DeletedByName(s, name))
  {
    match FindIndex(s, name)
    case Some(k) => RemovedAtKeepsNamesDistinct(s, k);
    case None =>
  }

  lemma {:induction false} SumQuantitiesAppend(s: seq<Product>, t: seq<Product>)
    ensures SumQuantities(s + t) == SumQuantities(s) + SumQuantities(t)
    decreases |t|
  {
    if t == [] {
      assert s + t == s;
    } else {
      assert (s + t)[..|s + t| - 1] == s + t[..|t| - 1];
      SumQuantitiesAppend(s, t[..|t| - 1]);
    }
  }

  /** Merging or appending, `push_item` raises the total quantity by exactly
      `val`'s quantity. */
  lemma {:induction false} PushedAddsQuantity(s: seq<Product>, val: Product)
    ensures SumQuantities(Pushed(s, val)) == SumQuantities(s) + val.quantity
  {
    match FindIndex(s, val.name)
    case Some(k) =>
      SlotUpdateChangesSum(s, k, SetQuantity(s[k], s[k].quantity + val.quantity));
    case None =>
      SumOfOne(val);
      SumQuantitiesAppend(s, [val]);
  }

  /** Overwriting one line changes the total by the difference of quantities. */
  lemma {:induction false} SlotUpdateChangesSum(s: seq<Product>, k: nat, line: Product)
    requires k < |s|
    ensures SumQuantities(s[k := line]) == SumQuantities(s) - s[k].quantity + line.quantity
  {
    var pre, post := s[..k], s[k + 1..];
    assert s == (pre + [s[k]]) + post;
    assert s[k := line] == (pre + [line]) + post;
    SumOfOne(s[k]);
    SumOfOne(line);
    SumQuantitiesAppend(pre, [s[k]]);
    SumQuantitiesAppend(pre + [s[k]], post);
    SumQuantitiesAppend(pre, [line]);
    SumQuantitiesAppend(pre + [line], post);
  }

  /** Removing the k-th line lowers the total by that line's quantity. */
  lemma {:induction false} RemovedAtSubtractsQuantity(s: seq<Product>, k: nat)
    requires k < |s|
    ensures SumQuantities(RemovedAt(s, k)) == SumQuantities(s) - s[k].quantity
  {
    var pre, post := s[..k], s[k + 1..];
    var mid := pre + [s[k]];
    assert s == mid + post;
    SumOfOne(s[k]);
    SumQuantitiesAppend(pre, [s[k]]);
    assert SumQuantities(mid) == SumQuantities(pre) + s[k].quantity;
    SumQuantitiesAppend(mid, post);
    assert SumQuantities(s) == SumQuantities(mid) + SumQuantities(post);
    SumQuantitiesAppend(pre, post);
  }

  lemma SumOfOne(p: Product)
    ensures SumQuantities([p]) == p.quantity
  {
    assert [p][..0] == [];
  }

  /** Adding "milk" and then "MILK" leaves one line, under the first spelling,
      with the quantities added. */
  lemma MergeIgnoresCase()
    ensures Pushed(Pushed([], Product("milk", 80.0, 2, 0)), Product("MILK", 80.0, 3, 0))
         == [Product("milk", 80.0, 5, 0)]
  {
    var one := Pushed([], Product("milk", 80.0, 2, 0));
    assert one == [Product("milk", 80.0, 2, 0)];
    assert ToLower('M') == 'm' && ToLower('I') == 'i' && ToLower('L') == 'l' && ToLower('K') == 'k';
    assert Matches(one[0], "MILK");
  }

  class LinkedList {
    var items: seq<Product>
    var itemCount: int

    /** `item_count` always equals the number of nodes. */
    ghost predicate Valid()
      reads this
    {
      itemCount == |items|
    }

    constructor ()
      ensures Valid() && items == []
    {
      items := [];
      itemCount := 0;
    }

    /** `empty()`: the head pointer is null exactly when the count is zero. */
    function Empty(): (r: bool)
      reads this
      requires Valid()
      ensures r <==> itemCount == 0
    {
      items == []
    }

    function Size(): (n: int)
      reads this
      requires Valid()
      ensures n == |items|
    {
      itemCount
    }

    /** `front()`: the head line, or a default product when empty. */
    function Front(): (p: Product)
      reads this
      requires Valid()
      ensures items == [] ==> p == DefaultProduct()
      ensures items != [] ==> p == items[0]
    {
      if Empty() then DefaultProduct() else items[0]
    }

    /** `back()`: the tail line, or a default product when empty. */
    function Back(): (p: Product)
      reads this
      requires Valid()
      ensures items == [] ==> p == DefaultProduct()
      ensures items != [] ==> p == items[|items| - 1]
    {
      if Empty() then DefaultProduct() else items[itemCount - 1]
    }

    /** `get_at_position`: 1-indexed; outside [1, size] a default product. */
    function GetAtPosition(position: int): (p: Product)
      reads this
      requires Valid()
      ensures 1 <= position <= |items| ==> p == items[position - 1]
      ensures !(1 <= position <= |items|) ==> p == DefaultProduct()
    {
      if position < 1 || position > itemCount then DefaultProduct() else items[position - 1]
    }

    /** `total_quantity`: walks the list adding up quantities. */
    method TotalQuantity() returns (total: int)
      requires Valid()
      ensures total == SumQuantities(items)
    {
      total := 0;
      var i := 0;
      while i < |items|
        invariant 0 <= i <= |items|
        invariant total == SumQuantities(items[..i])
      {
        assert items[..i + 1][..i] == items[..i];
        total := total + items[i].quantity;
        i := i + 1;
      }
      assert items[..i] == items;
    }

    /** `find`: the first line whose name matches ignoring case. */
    method Find(productName: string) returns (r: Option<nat>)
      requires Valid()
      ensures r == FindIndex(items, productName)
    {
      var i := 0;
      while i < |items|
        invariant 0 <= i <= |items|
        invariant forall j :: 0 <= j < i ==> !Matches(items[j], productName)
      {
        if StrEqualsIgnoreCase(items[i].name, productName) {
          return Some(i);
        }
        i := i + 1;
      }
      return None;
    }

    method InsertAtHead(val: Product)
      requires Valid()
      modifies this
      ensures Valid() && items == [val] + old(items)
    {
      items := [val] + items;
      itemCount := itemCount + 1;
    }

    method InsertAtTail(val: Product)
      requires Valid()
      modifies this
      ensures Valid() && items == old(items) + [val]
    {
      if Empty() {
        InsertAtHead(val);
        return;
      }
      items := items + [val];
      itemCount := itemCount + 1;
    }

    /** `insert_at_position`: positions 1..size+1 put `val` at that position;
        any other position does nothing. */
    method InsertAtPosition(val: Product, position: int)
      requires Valid()
      modifies this
      ensures Valid()
      ensures 1 <= position <= old(|items|) + 1 ==>
                items == old(items)[..position - 1] + [val] + old(items)[position - 1..]
      ensures !(1 <= position <= old(|items|) + 1) ==> items == old(items)
    {
      if position < 1 || position > itemCount + 1 {
        return;
      }
      if position == 1 {
        InsertAtHead(val);
        return;
      }
      items := items[..position - 1] + [val] + items[position - 1..];
      itemCount := itemCount + 1;
    }

    /** `push_item`: merge into the first case-insensitive match, else append. */
    method PushItem(val: Product)
      requires Valid()
      modifies this
      ensures Valid() && items == Pushed(old(items), val)
    {
      var existing := Find(val.name);
      match existing
      case Some(k) =>
        var updated := items[k];
        updated := SetQuantity(updated, updated.quantity + val.quantity);
        items := items[k := updated];
      case None =>
        InsertAtTail(val);
    }

    method DeleteAtHead() returns (deleted: Product)
      requires Valid()
      modifies this
      ensures Valid()
      ensures old(items) == [] ==> deleted == DefaultProduct() && items == []
      ensures old(items) != [] ==> deleted == old(items)[0] && items == old(items)[1..]
    {
      if Empty() {
        return DefaultProduct();
      }
      deleted := items[0];
      items := items[1..];
      itemCount := itemCount - 1;
    }

    method DeleteAtTail() returns (deleted: Product)
      requires Valid()
      modifies this
      ensures Valid()
      ensures old(items) == [] ==> deleted == DefaultProduct() && items == []
      ensures old(items) != [] ==>
                deleted == old(items)[|old(items)| - 1] && items == old(items)[..|old(items)| - 1]
    {
      if Empty() {
        return DefaultProduct();
      }
      if itemCount == 1 {
        deleted := DeleteAtHead();
        return;
      }
      deleted := items[itemCount - 1];
      items := items[..itemCount - 1];
      itemCount := itemCount - 1;
    }

    /** `delete_at_position`: 1-indexed; outside [1, size] a default product and
        no change, otherwise exactly the p-th line is removed. */
    method DeleteAtPosition(position: int) returns (deleted: Product)
      requires Valid()
      modifies this
      ensures Valid()
      ensures !(1 <= position <= old(|items|)) ==> deleted == DefaultProduct() && items == old(items)
      ensures 1 <= position <= old(|items|) ==>
                deleted == old(items)[position - 1] && items == RemovedAt(old(items), position - 1)
    {
      if position < 1 || position > itemCount {
        return DefaultProduct();
      }
      if position == 1 {
        deleted := DeleteAtHead();
        return;
      }
      deleted := items[position - 1];
      items := items[..position - 1] + items[position..];
      itemCount := itemCount - 1;
    }

    /** `delete_by_name`: unlinks the first line whose name matches ignoring case. */
    method DeleteByName(productName: string) returns (found: bool)
      requires Valid()
      modifies this
      ensures Valid()
      ensures found <==> FindIndex(old(items), productName).Some?
      ensures items == DeletedByName(old(items), productName)
    {
      if Empty() {
        return false;
      }
      if StrEqualsIgnoreCase(items[0].name, productName) {
        var _ := DeleteAtHead();
        return true;
      }
      var i := 1;
      while i < |items|
        invariant 1 <= i <= |items|
        invariant forall j :: 0 <= j < i ==> !Matches(items[j], productName)
        invariant items == old(items) && Valid()
      {
        if StrEqualsIgnoreCase(items[i].name, productName) {
          items := items[..i] + items[i + 1..];
          itemCount := itemCount - 1;
          return true;
        }
        i := i + 1;
      }
      return false;
    }

    method Clear()
      requires Valid()
      modifies this
      ensures Valid() && items == []
    {
      while !Empty()
        invariant Valid()
        decreases |items|
      {
        var _ := DeleteAtHead();
      }
    }
  }
}
