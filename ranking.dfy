/**
 * The frequent-item record of src/core/Array.h and the order the ranking is kept
 * in: by purchase count, highest first, records with equal counts in their
 * previous relative order (the order `sortByFrequency` produces, since it swaps
 * neighbours only when the left one has the strictly smaller count).
 *
 * `ByFrequency` is that order written as a stable insertion sort; the lemmas
 * show it is sorted, keeps every tie group in order, is a permutation, and is
 * the only sequence with those two properties.
 */
module Ranking {

  import opened Options

  /** `MAX_FREQUENT_ITEMS`. */
  const MaxFrequentItems: int := 10

  datatype FrequentItem = FrequentItem(
    id: int, name: string, price: real, icon: string, purchaseCount: int, isCustom: bool)

  /** `FrequentItem()`: id -1, empty name and icon, price 0, count 0, not custom. */
  function DefaultItem(): (r: FrequentItem)
    ensures r.id == -1 && r.name == "" && r.price == 0.0 && r.icon == ""
    ensures r.purchaseCount == 0 && !r.isCustom
  {
    FrequentItem(-1, "", 0.0, "", 0, false)
  }

  /** The field constructor, with count 0 and not custom unless given. */
  function MakeItem(itemId: int, n: string, p: real, i: string, count: int := 0, custom: bool := false): (r: FrequentItem)
    ensures r.id == itemId && r.name == n && r.price == p && r.icon == i
    ensures r.purchaseCount == count && r.isCustom == custom
  {
    FrequentItem(itemId, n, p, i, count, custom)
  }

  /** The ten records the constructor and `resetToDefaults` add, in that order. */
  function DefaultItems(): (r: seq<FrequentItem>)
    ensures |r| == MaxFrequentItems
    ensures forall k :: 0 <= k < |r| ==> r[k].id == k && r[k].purchaseCount == 0 && !r[k].isCustom
  {
    [ MakeItem(0, "Milk (1 Liter)", 80.0, "🥛", 0),
      MakeItem(1, "Bread (Whole Wheat)", 60.0, "🍞", 0),
      MakeItem(2, "Eggs (Dozen)", 120.0, "🥚", 0),
      MakeItem(3, "Butter", 150.0, "🧈", 0),
      MakeItem(4, "Cheese (Cheddar)", 250.0, "🧀", 0),
      MakeItem(5, "Chicken Breast", 350.0, "🍗", 0),
      MakeItem(6, "Rice (5 kg bag)", 450.0, "🍚", 0),
      MakeItem(7, "Pasta", 90.0, "🍝", 0),
      MakeItem(8, "Tomato Sauce", 70.0, "🥫", 0),
      MakeItem(9, "Orange Juice", 180.0, "🍊", 0) ]
  }

  /** `getLastItem` on the contents: the last record, or the default record. */
  function LastItem(s: seq<FrequentItem>): (r: FrequentItem)
    ensures s == [] ==> r == DefaultItem()
    ensures s != [] ==> r == s[|s| - 1]
  {
    if s == [] then DefaultItem() else s[|s| - 1]
  }

  /** Position of the first record with the given id. */
  function FindId(s: seq<FrequentItem>, id: int): (r: Option<nat>)
    ensures r.None? <==> forall j :: 0 <= j < |s| ==> s[j].id != id
    ensures r.Some? ==> r.value < |s| && s[r.value].id == id
    ensures r.Some? ==> forall j :: 0 <= j < r.value ==> s[j].id != id
  {
    if s == [] then None
    else if s[0].id == id then Some(0)
    else
      match FindId(s[1..], id)
      case None =>
        assert forall j :: 1 <= j < |s| ==> s[j] == s[1..][j - 1];
        None
      case Some(k) =>
        assert forall j :: 1 <= j <= k ==> s[j] == s[1..][j - 1];
        Some(k + 1)
  }

  /** The first record with this id has `n` added to its count; without such a
      record nothing changes. */
  function AddedToId(s: seq<FrequentItem>, id: int, n: int): seq<FrequentItem>
  {
    match FindId(s, id)
    case Some(k) => s[k := s[k].(purchaseCount := s[k].purchaseCount + n)]
    case None => s
  }

  /** `replaceItem` on the contents: an index in range gets the given fields,
      marked custom; any other index changes nothing. */
  function Replaced(s: seq<FrequentItem>, index: int, newId: int, name: string, price: real,
                    icon: string, purchaseCount: int): seq<FrequentItem>
  {
    if 0 <= index < |s| then s[index := MakeItem(newId, name, price, icon, purchaseCount, true)] else s
  }

  /** `replaceItem` overwrites only the chosen slot, with the given id, name
      and count marked custom, and never changes the size; an index out of range
      changes nothing. */
  lemma ReplacedOverwritesOneSlot(s: seq<FrequentItem>, index: int, newId: int, name: string,
                                  price: real, icon: string, purchaseCount: int)
    ensures var r := Replaced(s, index, newId, name, price, icon, purchaseCount);
            |r| == |s|
            && (!(0 <= index < |s|) ==> r == s)
            && (0 <= index < |s| ==>
                  r[index].id == newId && r[index].name == name && r[index].purchaseCount == purchaseCount
                  && r[index].isCustom
                  && forall j :: 0 <= j < |s| && j != index ==> r[j] == s[j])
  {
  }

  /** Adding to a count never moves a record, never touches another field and
      never touches another record. */
  lemma AddedToIdChangesOnlyOneCount(s: seq<FrequentItem>, id: int, n: int)
    ensures |AddedToId(s, id, n)| == |s|
    ensures forall j :: 0 <= j < |s| ==>
      AddedToId(s, id, n)[j] == s[j].(purchaseCount := AddedToId(s, id, n)[j].purchaseCount)
    ensures FindId(s, id).None? ==> AddedToId(s, id, n) == s
    ensures FindId(s, id).Some? ==> forall j :: 0 <= j < |s| ==>
      AddedToId(s, id, n)[j].purchaseCount
        == s[j].purchaseCount + (if j == FindId(s, id).value then n else 0)
  {
  }

  /** Adding `m` and then `n` to the same id is adding `m + n`: the first record
      carrying the id does not move when its count changes. */
  lemma {:induction false} AddedToIdTwice(s: seq<FrequentItem>, id: int, m: int, n: int)
    ensures AddedToId(AddedToId(s, id, m), id, n) == AddedToId(s, id, m + n)
  {
    match FindId(s, id)
    case Some(k) =>
      var t := s[k := s[k].(purchaseCount := s[k].purchaseCount + m)];
      assert AddedToId(s, id, m) == t;
      FirstIdAt(t, id, k);
      assert t[k := t[k].(purchaseCount := t[k].purchaseCount + n)]
          == s[k := s[k].(purchaseCount := s[k].purchaseCount + (m + n))];
    case None =>
  }

  /** The first record with the id is the one `FindId` finds. */
  lemma FirstIdAt(s: seq<FrequentItem>, id: int, k: nat)
    requires k < |s| && s[k].id == id
    requires forall j :: 0 <= j < k ==> s[j].id != id
    ensures FindId(s, id) == Some(k)
  {
    assert FindId(s, id).Some?;
  }

  /** Adding to an id found at position `k` changes exactly slot `k`. */
  lemma AddedToIdAt(s: seq<FrequentItem>, id: int, k: nat, n: int)
    requires FindId(s, id) == Some(k)
    ensures AddedToId(s, id, n) == s[k := s[k].(purchaseCount := s[k].purchaseCount + n)]
  {
    var t := s[k := s[k].(purchaseCount := s[k].purchaseCount + n)];
    AddedToIdChangesOnlyOneCount(s, id, n);
    forall j | 0 <= j < |s|
      ensures AddedToId(s, id, n)[j] == t[j]
    {
      var a := AddedToId(s, id, n)[j];
      assert a == s[j].(purchaseCount := a.purchaseCount);
    }
  }

  // ---------------------------------------------------------------------------
  // The order by frequency.

  /** Counts never increase from left to right. */
  predicate SortedDesc(s: seq<FrequentItem>)
  {
    forall p, q :: 0 <= p < q < |s| ==> s[p].purchaseCount >= s[q].purchaseCount
  }

  /** The records with count c, in their order in s. */
  function WithCount(s: seq<FrequentItem>, c: int): seq<FrequentItem>
  {
    if s == [] then []
    else (if s[0].purchaseCount == c then [s[0]] else []) + WithCount(s[1..], c)
  }

  /** Every group of equal counts appears in the same order in s and t. */
  ghost predicate SameTieOrder(s: seq<FrequentItem>, t: seq<FrequentItem>)
  {
    forall c :: WithCount(s, c) == WithCount(t, c)
  }

  /** Places x before the first record whose count is not larger than x's. */
  function InsertByCount(x: FrequentItem, t: seq<FrequentItem>): seq<FrequentItem>
  {
    if t == [] || t[0].purchaseCount <= x.purchaseCount then [x] + t
    else [t[0]] + InsertByCount(x, t[1..])
  }

  /** Stable sort by descending purchase count. */
  function ByFrequency(s: seq<FrequentItem>): seq<FrequentItem>
  {
    if s == [] then [] else InsertByCount(s[0], ByFrequency(s[1..]))
  }

  lemma {:induction false} WithCountAppend(s: seq<FrequentItem>, t: seq<FrequentItem>, c: int)
    ensures WithCount(s + t, c) == WithCount(s, c) + WithCount(t, c)
  {
    if s == [] {
      assert s + t == t;
    } else {
      var head := if s[0].purchaseCount == c then [s[0]] else [];
      assert (s + t)[0] == s[0];
      assert (s + t)[1..] == s[1..] + t;
      WithCountAppend(s[1..], t, c);
      assert WithCount(s + t, c) == head + WithCount(s[1..] + t, c);
      assert WithCount(s, c) == head + WithCount(s[1..], c);
    }
  }

  lemma WithCountCons(x: FrequentItem, t: seq<FrequentItem>, c: int)
    ensures WithCount([x] + t, c) == (if x.purchaseCount == c then [x] else []) + WithCount(t, c)
  {
    assert ([x] + t)[1..] == t;
  }

  /** Two neighbours with different counts are never in the same tie group,
      so their order does not show in any group. */
  lemma SwapPairTieOrder(a: FrequentItem, b: FrequentItem, post: seq<FrequentItem>, c: int)
    requires a.purchaseCount != b.purchaseCount
    ensures WithCount([a, b] + post, c) == WithCount([b, a] + post, c)
  {
    assert [a, b] + post == [a] + ([b] + post);
    assert [b, a] + post == [b] + ([a] + post);
    WithCountCons(a, [b] + post, c);
    WithCountCons(b, post, c);
    WithCountCons(b, [a] + post, c);
    WithCountCons(a, post, c);
  }

  /** Swapping two neighbours with different counts keeps every tie group in order. */
  lemma {:induction false} SwapKeepsTieOrder(s: seq<FrequentItem>, j: nat)
    requires j + 1 < |s| && s[j].purchaseCount != s[j + 1].purchaseCount
    ensures SameTieOrder(s[j := s[j + 1]][j + 1 := s[j]], s)
  {
    var pre, post := s[..j], s[j + 2..];
    var t := s[j := s[j + 1]][j + 1 := s[j]];
    assert s == pre + ([s[j], s[j + 1]] + post);
    assert t == pre + ([s[j + 1], s[j]] + post);
    forall c
      ensures WithCount(t, c) == WithCount(s, c)
    {
      WithCountAppend(pre, [s[j], s[j + 1]] + post, c);
      WithCountAppend(pre, [s[j + 1], s[j]] + post, c);
      SwapPairTieOrder(s[j], s[j + 1], post, c);
    }
  }

  lemma {:induction false} InsertByCountPermutes(x: FrequentItem, t: seq<FrequentItem>)
    ensures multiset(InsertByCount(x, t)) == multiset{x} + multiset(t)
    ensures |InsertByCount(x, t)| == |t| + 1
  {
    if t != [] && t[0].purchaseCount > x.purchaseCount {
      InsertByCountPermutes(x, t[1..]);
      assert t == [t[0]] + t[1..];
    }
  }

  /** Inserting keeps every count under a bound that x and t are under. */
  lemma {:induction false} InsertByCountBounded(x: FrequentItem, t: seq<FrequentItem>, b: int)
    requires x.purchaseCount <= b
    requires forall i :: 0 <= i < |t| ==> t[i].purchaseCount <= b
    ensures forall i :: 0 <= i < |InsertByCount(x, t)| ==> InsertByCount(x, t)[i].purchaseCount <= b
  {
    if t != [] && t[0].purchaseCount > x.purchaseCount {
      InsertByCountBounded(x, t[1..], b);
    }
  }

  lemma {:induction false} InsertByCountSorted(x: FrequentItem, t: seq<FrequentItem>)
    requires SortedDesc(t)
    ensures SortedDesc(InsertByCount(x, t))
  {
    if t != [] && t[0].purchaseCount > x.purchaseCount {
      var rest := InsertByCount(x, t[1..]);
      InsertByCountSorted(x, t[1..]);
      InsertByCountBounded(x, t[1..], t[0].purchaseCount);
      var r := [t[0]] + rest;
      assert forall q :: 0 < q < |r| ==> r[q] == rest[q - 1];
    }
  }

  lemma {:induction false} InsertByCountTieOrder(x: FrequentItem, t: seq<FrequentItem>, c: int)
    ensures WithCount(InsertByCount(x, t), c) == (if x.purchaseCount == c then [x] else []) + WithCount(t, c)
  {
    if t == [] || t[0].purchaseCount <= x.purchaseCount {
      WithCountCons(x, t, c);
    } else {
      InsertByCountTieOrder(x, t[1..], c);
      WithCountCons(t[0], InsertByCount(x, t[1..]), c);
      WithCountCons(t[0], t[1..], c);
      assert t == [t[0]] + t[1..];
    }
  }

  /** The ranking order is sorted by count, highest first. */
  lemma {:induction false} ByFrequencySorted(s: seq<FrequentItem>)
    ensures SortedDesc(ByFrequency(s))
  {
    if s != [] {
      ByFrequencySorted(s[1..]);
      InsertByCountSorted(s[0], ByFrequency(s[1..]));
    }
  }

  /** The ranking order is a permutation: every record, with its id and fields,
      appears as often as before. */
  lemma {:induction false} ByFrequencyPermutes(s: seq<FrequentItem>)
    ensures multiset(ByFrequency(s)) == multiset(s)
    ensures |ByFrequency(s)| == |s|
  {
    if s != [] {
      ByFrequencyPermutes(s[1..]);
      InsertByCountPermutes(s[0], ByFrequency(s[1..]));
      assert s == [s[0]] + s[1..];
    }
  }

  /** The ranking order keeps records of equal count in their relative order. */
  lemma {:induction false} ByFrequencyTieOrder(s: seq<FrequentItem>)
    ensures SameTieOrder(ByFrequency(s), s)
  {
    if s != [] {
      ByFrequencyTieOrder(s[1..]);
      forall c
        ensures WithCount(ByFrequency(s), c) == WithCount(s, c)
      {
        InsertByCountTieOrder(s[0], ByFrequency(s[1..]), c);
        WithCountCons(s[0], s[1..], c);
        assert s == [s[0]] + s[1..];
      }
    }
  }

  lemma {:induction false} WithCountNonEmpty(s: seq<FrequentItem>, c: int)
    requires WithCount(s, c) != []
    ensures exists j :: 0 <= j < |s| && s[j].purchaseCount == c
  {
    if s[0].purchaseCount != c {
      WithCountNonEmpty(s[1..], c);
      var j :| 0 <= j < |s[1..]| && s[1..][j].purchaseCount == c;
      assert s[j + 1] == s[1..][j];
    }
  }

  lemma HeadIsInItsTieGroup(s: seq<FrequentItem>)
    requires s != []
    ensures WithCount(s, s[0].purchaseCount) != []
  {
  }

  /** Two sorted sequences with the same tie order are equal: the stable order by
      count is unique. */
  lemma {:induction false} SortedTieOrderUnique(t: seq<FrequentItem>, u: seq<FrequentItem>)
    requires SortedDesc(t) && SortedDesc(u) && SameTieOrder(t, u)
    ensures t == u
    decreases |t|
  {
    if t == [] || u == [] {
      if t != [] {
        HeadIsInItsTieGroup(t);
        assert false;
      } else if u != [] {
        HeadIsInItsTieGroup(u);
        assert false;
      }
      return;
    }
    var ct, cu := t[0].purchaseCount, u[0].purchaseCount;
    if ct < cu {
      assert WithCount(u, cu) != [];
      WithCountNonEmpty(t, cu);
      assert false;
    }
    if cu < ct {
      assert WithCount(t, ct) != [];
      WithCountNonEmpty(u, ct);
      assert false;
    }
    WithCountCons(t[0], t[1..], ct);
    WithCountCons(u[0], u[1..], ct);
    assert t == [t[0]] + t[1..] && u == [u[0]] + u[1..];
    assert WithCount(t, ct) == WithCount(u, ct);
    assert t[0] == WithCount(t, ct)[0] == WithCount(u, ct)[0] == u[0];
    forall c
      ensures WithCount(t[1..], c) == WithCount(u[1..], c)
    {
      assert t == [t[0]] + t[1..] && u == [u[0]] + u[1..];
      WithCountCons(t[0], t[1..], c);
      WithCountCons(u[0], u[1..], c);
      var head := if t[0].purchaseCount == c then [t[0]] else [];
      assert head + WithCount(t[1..], c) == WithCount(t, c) == WithCount(u, c) == head + WithCount(u[1..], c);
      assert WithCount(t[1..], c) == (head + WithCount(t[1..], c))[|head|..];
    }
    SortedTieOrderUnique(t[1..], u[1..]);
    assert t == [t[0]] + t[1..] && u == [u[0]] + u[1..];
  }

  /** A sequence is the ranking order of s exactly when it is sorted by count and
      keeps the tie order of s. */
  lemma ByFrequencyCharacterized(s: seq<FrequentItem>, t: seq<FrequentItem>)
    ensures t == ByFrequency(s) <==> SortedDesc(t) && SameTieOrder(t, s)
  {
    ByFrequencySorted(s);
    ByFrequencyTieOrder(s);
    if SortedDesc(t) && SameTieOrder(t, s) {
      SortedTieOrderUnique(t, ByFrequency(s));
    }
  }

  /** Sorting an already sorted sequence changes nothing; in particular ten
      records with count 0 stay in their seeded order. */
  lemma ByFrequencyOfSorted(s: seq<FrequentItem>)
    requires SortedDesc(s)
    ensures ByFrequency(s) == s
  {
    ByFrequencyCharacterized(s, s);
  }

  /** Sorting twice is sorting once. */
  lemma ByFrequencyIdempotent(s: seq<FrequentItem>)
    ensures ByFrequency(ByFrequency(s)) == ByFrequency(s)
  {
    ByFrequencySorted(s);
    ByFrequencyOfSorted(ByFrequency(s));
  }

  /** After the sort the last record has the smallest count. */
  lemma LastIsLeastAfterSort(s: seq<FrequentItem>)
    requires s != []
    ensures forall e :: e in s ==> LastItem(ByFrequency(s)).purchaseCount <= e.purchaseCount
  {
    var r := ByFrequency(s);
    ByFrequencySorted(s);
    ByFrequencyPermutes(s);
    forall e | e in s
      ensures LastItem(r).purchaseCount <= e.purchaseCount
    {
      assert e in multiset(r);
      var j :| 0 <= j < |r| && r[j] == e;
    }
  }

  /** The seeded defaults are sorted: every count is 0. */
  lemma DefaultItemsSorted()
    ensures SortedDesc(DefaultItems())
  {
    var d := DefaultItems();
    assert forall p :: 0 <= p < |d| ==> d[p].purchaseCount == 0;
  }

  /** The seeded defaults are already in ranking order. */
  lemma DefaultItemsRanked()
    ensures ByFrequency(DefaultItems()) == DefaultItems()
  {
    DefaultItemsSorted();
    ByFrequencyOfSorted(DefaultItems());
  }
}
