/**
 * The rules src/grocery_api.cpp applies to the catalog, the frequent-item
 * ranking together with the custom-item pool, written as functions on values:
 * how a checked-out cart line is counted, the single-challenger promotion of
 * `checkAndPromoteCustomItems`, the whole of `api_start_checkout` and the
 * restore path of `api_restore_custom_item`. The methods of `GroceryApi.Session`
 * are proved to produce exactly these values.
 */
module CatalogRules {

  import opened Options
  import opened Products
  import opened Ranking
  import opened CustomItems

  /** The icon a promoted custom item is shown with. */
  const NewItemIcon: string := "🆕"

  /** A cart line whose id is -1 or at least 1000 is a custom item; every other
      id names a default record. */
  predicate IsCustomId(id: int)
  {
    id == -1 || id >= FirstCustomId
  }

  /** The ranking (the used slots of the frequent-item array) and the pool. */
  datatype Catalog = Catalog(ranked: seq<FrequentItem>, pool: Pool)

  /** How often `for (int i = 0; i < n; i++)` runs. */
  function Repeats(n: int): (r: nat)
    ensures n >= 0 ==> r == n
    ensures n < 0 ==> r == 0
  {
    if n > 0 then n else 0
  }

  /** The record a custom node becomes when it is promoted. */
  function PromotedRecord(top: CustomItemNode): FrequentItem
  {
    MakeItem(top.uniqueId, top.name, top.price, NewItemIcon, top.purchaseCount, true)
  }

  /** `checkAndPromoteCustomItems`: the pool's first node with the largest count
      challenges the last ranked record. Only a strictly larger count wins; the
      winner overwrites the last slot, leaves the pool and the ranking is sorted
      again. */
  function Promoted(c: Catalog): Catalog
  {
    match HighestIndex(c.pool.nodes)
    case None => c
    case Some(k) =>
      var top := c.pool.nodes[k];
      if top.purchaseCount > LastItem(c.ranked).purchaseCount then
        Catalog(ByFrequency(Replaced(c.ranked, |c.ranked| - 1, top.uniqueId, top.name, top.price,
                                     NewItemIcon, top.purchaseCount)),
                Pool(RemovedByName(c.pool.nodes, top.name), c.pool.nextId))
      else c
  }

  /** One cart line at checkout: a custom id goes to the pool with the line's
      whole quantity; any other id adds the quantity, one at a time, to the
      first record with that id (nothing when there is none). */
  function CountLine(c: Catalog, line: Product): Catalog
  {
    if IsCustomId(line.productId) then
      Catalog(c.ranked, AddedOrUpdated(c.pool, line.name, line.price, line.quantity))
    else
      Catalog(AddedToId(c.ranked, line.productId, Repeats(line.quantity)), c.pool)
  }

  /** The lines counted in cart order, head first. */
  function CountLines(c: Catalog, lines: seq<Product>): Catalog
  {
    if lines == [] then c else CountLine(CountLines(c, lines[..|lines| - 1]), lines[|lines| - 1])
  }

  /** `api_start_checkout` on the catalog: count every line, sort, one promotion. */
  function CheckedOut(c: Catalog, lines: seq<Product>): Catalog
  {
    var counted := CountLines(c, lines);
    Promoted(Catalog(ByFrequency(counted.ranked), counted.pool))
  }

  /** `api_restore_custom_item` on the catalog. A record with the saved id gets
      the saved count added. Otherwise the name is added to the pool once per
      saved purchase and one promotion runs. Either way the ranking is sorted. */
  function Restored(c: Catalog, name: string, price: real, purchaseCount: int, itemId: int): Catalog
  {
    if FindId(c.ranked, itemId).Some? then
      Catalog(ByFrequency(AddedToId(c.ranked, itemId, Repeats(purchaseCount))), c.pool)
    else
      var p := Promoted(Catalog(c.ranked, AddedRepeatedly(c.pool, name, price, purchaseCount)));
      Catalog(ByFrequency(p.ranked), p.pool)
  }

  // ---------------------------------------------------------------------------
  // Promotion.

  /** Promotion changes the catalog only when the pool has a node whose count
      is strictly larger than the last record's; then that node is the first
      with the largest count. */
  lemma PromotionHappensOnlyOnLargerCount(c: Catalog)
    ensures c.pool.nodes == [] ==> Promoted(c) == c
    ensures Promoted(c) != c ==>
      exists k :: IsFirstMax(c.pool.nodes, k)
                  && c.pool.nodes[k].purchaseCount > LastItem(c.ranked).purchaseCount
    ensures (forall j :: 0 <= j < |c.pool.nodes| ==>
               c.pool.nodes[j].purchaseCount <= LastItem(c.ranked).purchaseCount)
            ==> Promoted(c) == c
  {
    match HighestIndex(c.pool.nodes)
    case None =>
    case Some(k) =>
      assert IsFirstMax(c.pool.nodes, k);
  }

  /** A winning challenger displaces exactly the last record: the ranking keeps
      its size and its order, holds the other records and the promoted one, the
      challenger leaves the pool and the id counter stays. */
  lemma PromotionDisplacesLast(c: Catalog, k: nat)
    requires c.ranked != [] && WellFormed(c.pool)
    requires IsFirstMax(c.pool.nodes, k)
    requires c.pool.nodes[k].purchaseCount > LastItem(c.ranked).purchaseCount
    ensures var r := Promoted(c);
            var top := c.pool.nodes[k];
            |r.ranked| == |c.ranked|
            && SortedDesc(r.ranked)
            && multiset(r.ranked) == multiset(c.ranked[..|c.ranked| - 1]) + multiset{PromotedRecord(top)}
            && r.pool.nodes == c.pool.nodes[..k] + c.pool.nodes[k + 1..]
            && FindName(r.pool.nodes, top.name).None?
            && r.pool.nextId == c.pool.nextId
            && WellFormed(r.pool)
  {
    var n := |c.ranked|;
    var top := c.pool.nodes[k];
    FirstMaxUnique(c.pool.nodes, k, HighestIndex(c.pool.nodes).value);
    var replaced := Replaced(c.ranked, n - 1, top.uniqueId, top.name, top.price, NewItemIcon, top.purchaseCount);
    assert replaced == c.ranked[..n - 1] + [PromotedRecord(top)];
    ByFrequencySorted(replaced);
    ByFrequencyPermutes(replaced);
    RemoveOwnName(c.pool.nodes, k);
    RemovedByNameKeepsWellFormed(c.pool, top.name);
  }

  /** Promotion keeps the size of the ranking, keeps a sorted ranking sorted and
      keeps the pool well formed. */
  lemma PromotedKeepsShape(c: Catalog)
    ensures |Promoted(c).ranked| == |c.ranked|
    ensures SortedDesc(c.ranked) ==> SortedDesc(Promoted(c).ranked)
    ensures WellFormed(c.pool) ==> WellFormed(Promoted(c).pool)
  {
    match HighestIndex(c.pool.nodes)
    case None =>
    case Some(k) =>
      var top := c.pool.nodes[k];
      if top.purchaseCount > LastItem(c.ranked).purchaseCount {
        var replaced := Replaced(c.ranked, |c.ranked| - 1, top.uniqueId, top.name, top.price,
                                 NewItemIcon, top.purchaseCount);
        ByFrequencySorted(replaced);
        ByFrequencyPermutes(replaced);
        if WellFormed(c.pool) {
          RemovedByNameKeepsWellFormed(c.pool, top.name);
        }
      }
  }

  // ---------------------------------------------------------------------------
  // Checkout.

  /** Where a line's quantity goes: a custom id raises the pool count of the
      line's name and leaves the ranking; any other id raises the count of the
      first record with that id (by nothing for a negative quantity) and leaves
      the pool. */
  lemma CountLineRoutes(c: Catalog, line: Product)
    ensures IsCustomId(line.productId) ==>
      CountLine(c, line).ranked == c.ranked
      && CountOf(CountLine(c, line).pool.nodes, line.name) == CountOf(c.pool.nodes, line.name) + line.quantity
    ensures !IsCustomId(line.productId) ==>
      CountLine(c, line).pool == c.pool
      && |CountLine(c, line).ranked| == |c.ranked|
      && (FindId(c.ranked, line.productId).None? ==> CountLine(c, line).ranked == c.ranked)
      && (FindId(c.ranked, line.productId).Some? ==>
            var k := FindId(c.ranked, line.productId).value;
            CountLine(c, line).ranked[k].purchaseCount == c.ranked[k].purchaseCount + Repeats(line.quantity))
  {
    if IsCustomId(line.productId) {
      AddedOrUpdatedCounts(c.pool, line.name, line.price, line.quantity, line.name);
    } else {
      AddedToIdChangesOnlyOneCount(c.ranked, line.productId, Repeats(line.quantity));
    }
  }

  /** Counting lines never changes the size of the ranking and keeps the pool
      well formed. */
  lemma {:induction false} CountLinesKeepsShape(c: Catalog, lines: seq<Product>)
    ensures |CountLines(c, lines).ranked| == |c.ranked|
    ensures WellFormed(c.pool) ==> WellFormed(CountLines(c, lines).pool)
  {
    if lines != [] {
      var before := CountLines(c, lines[..|lines| - 1]);
      var line := lines[|lines| - 1];
      CountLinesKeepsShape(c, lines[..|lines| - 1]);
      AddedToIdChangesOnlyOneCount(before.ranked, line.productId, Repeats(line.quantity));
      if WellFormed(c.pool) {
        AddedOrUpdatedKeepsWellFormed(before.pool, line.name, line.price, line.quantity);
      }
    }
  }

  /** After checkout the ranking is as long as before, sorted by count, and the
      pool is still well formed. */
  lemma CheckedOutShape(c: Catalog, lines: seq<Product>)
    ensures |CheckedOut(c, lines).ranked| == |c.ranked|
    ensures SortedDesc(CheckedOut(c, lines).ranked)
    ensures WellFormed(c.pool) ==> WellFormed(CheckedOut(c, lines).pool)
  {
    var counted := CountLines(c, lines);
    CountLinesKeepsShape(c, lines);
    ByFrequencyPermutes(counted.ranked);
    ByFrequencySorted(counted.ranked);
    PromotedKeepsShape(Catalog(ByFrequency(counted.ranked), counted.pool));
  }

  // ---------------------------------------------------------------------------
  // Restore.

  /** After a restore the ranking is as long as before, sorted by count, and the
      pool is still well formed. */
  lemma RestoredShape(c: Catalog, name: string, price: real, purchaseCount: int, itemId: int)
    requires WellFormed(c.pool)
    ensures |Restored(c, name, price, purchaseCount, itemId).ranked| == |c.ranked|
    ensures SortedDesc(Restored(c, name, price, purchaseCount, itemId).ranked)
    ensures WellFormed(Restored(c, name, price, purchaseCount, itemId).pool)
  {
    if FindId(c.ranked, itemId).Some? {
      var added := AddedToId(c.ranked, itemId, Repeats(purchaseCount));
      AddedToIdChangesOnlyOneCount(c.ranked, itemId, Repeats(purchaseCount));
      ByFrequencyPermutes(added);
      ByFrequencySorted(added);
    } else {
      var pool := AddedRepeatedly(c.pool, name, price, purchaseCount);
      AddedRepeatedlyKeepsWellFormed(c.pool, name, price, purchaseCount);
      var p := Promoted(Catalog(c.ranked, pool));
      PromotedKeepsShape(Catalog(c.ranked, pool));
      ByFrequencyPermutes(p.ranked);
      ByFrequencySorted(p.ranked);
    }
  }

  lemma {:induction false} AddedRepeatedlyKeepsWellFormed(p: Pool, name: string, price: real, n: int)
    requires WellFormed(p)
    ensures WellFormed(AddedRepeatedly(p, name, price, n))
    decreases n
  {
    if n > 0 {
      AddedRepeatedlyKeepsWellFormed(p, name, price, n - 1);
      AddedOrUpdatedKeepsWellFormed(AddedRepeatedly(p, name, price, n - 1), name, price, 1);
    }
  }

  /** The pool side of a restore whose id is not ranked: the name's count grows
      by the saved count, and a name new to the pool is given the counter's next
      id, not the saved `itemId`. */
  lemma RestoreIntoPool(c: Catalog, name: string, price: real, purchaseCount: int, itemId: int)
    requires FindId(c.ranked, itemId).None? && purchaseCount >= 1
    ensures var pool := AddedRepeatedly(c.pool, name, price, purchaseCount);
            CountOf(pool.nodes, name) == CountOf(c.pool.nodes, name) + purchaseCount
            && (FindName(c.pool.nodes, name).None? ==>
                  pool.nodes[0] == CustomItemNode(name, price, purchaseCount, c.pool.nextId)
                  && pool.nextId == c.pool.nextId + 1)
  {
    AddedRepeatedlyIsOneAdd(c.pool, name, price, purchaseCount);
    AddedOrUpdatedCounts(c.pool, name, price, purchaseCount, name);
  }

  /** A restore with an id already ranked leaves the pool alone and moves that
      record's count up by the saved count. */
  lemma RestoreIntoRanking(c: Catalog, name: string, price: real, purchaseCount: int, itemId: int)
    requires FindId(c.ranked, itemId).Some?
    ensures var r := Restored(c, name, price, purchaseCount, itemId);
            var k := FindId(c.ranked, itemId).value;
            var raised := c.ranked[k].(purchaseCount := c.ranked[k].purchaseCount + Repeats(purchaseCount));
            r.pool == c.pool
            && multiset(r.ranked) == multiset(c.ranked[k := raised])
  {
    var k := FindId(c.ranked, itemId).value;
    AddedToIdAt(c.ranked, itemId, k, Repeats(purchaseCount));
    ByFrequencyPermutes(AddedToId(c.ranked, itemId, Repeats(purchaseCount)));
  }

  // ---------------------------------------------------------------------------
  // Rankings out of order.

  /** Record 9 of the seeded ranking raised by `n`: only its count changes. */
  lemma RaisedLastDefault(n: int)
    ensures var d := DefaultItems();
            AddedToId(d, 9, n) == d[9 := d[9].(purchaseCount := n)]
  {
    var d := DefaultItems();
    assert d[9].id == 9 && d[9].purchaseCount == 0;
    FirstIdAt(d, 9, 9);
    AddedToIdAt(d, 9, 9, n);
  }

  /** Four unit adds of a new name to the empty pool give one node with count 4
      and the first custom id. */
  lemma KaleRestoredIntoEmptyPool()
    ensures AddedRepeatedly(EmptyPool(), "Kale", 1.0, 4)
         == Pool([CustomItemNode("Kale", 1.0, 4, FirstCustomId)], FirstCustomId + 1)
  {
    AddedRepeatedlyIsOneAdd(EmptyPool(), "Kale", 1.0, 4);
  }

  /** Increments by id do not sort, so the ranking can leave ranking order, and
      then the last slot is not the least count. Restoring "Kale" with 4
      purchases next to ten-times-raised record 9 leaves Kale in the pool,
      although the ranking holds records with count 0: promotion compares with
      the last slot only. */
  lemma UnsortedRankingKeepsChallengerOut()
    ensures !SortedDesc(AddedToId(DefaultItems(), 9, 1))
    ensures var c := Catalog(AddedToId(DefaultItems(), 9, 10), EmptyPool());
            var r := Restored(c, "Kale", 1.0, 4, 1001);
            c.ranked[0].purchaseCount == 0
            && r.pool.nodes == [CustomItemNode("Kale", 1.0, 4, FirstCustomId)]
            && r.ranked == ByFrequency(c.ranked)
  {
    var d := DefaultItems();
    RaisedLastDefault(1);
    assert d[9 := d[9].(purchaseCount := 1)][0].purchaseCount < d[9 := d[9].(purchaseCount := 1)][9].purchaseCount;
    RaisedLastDefault(10);
    var ranked := d[9 := d[9].(purchaseCount := 10)];
    assert FindId(ranked, 1001).None?;
    KaleRestoredIntoEmptyPool();
    var pool := Pool([CustomItemNode("Kale", 1.0, 4, FirstCustomId)], FirstCustomId + 1);
    assert HighestIndex(pool.nodes) == Some(0);
    assert Promoted(Catalog(ranked, pool)) == Catalog(ranked, pool);
  }
}
