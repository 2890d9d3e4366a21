/**
 * `CustomItemsList` of src/core/Array.h: the singly linked pool of custom items
 * that are not ranked yet, newest first, with the node count and the id counter
 * (`nextId`, starting at 1000) that hands out their unique ids.
 *
 * The node chain is the sequence `nodes`, head first. Names are matched exactly
 * (no case folding), unlike the cart.
 */
module CustomItems {

  import opened Options

  /** The first id `nextId` hands out. */
  const FirstCustomId: int := 1000

  /** `CustomItemNode` without its `next` link. */
  datatype CustomItemNode = CustomItemNode(name: string, price: real, purchaseCount: int, uniqueId: int)

  /** The pool as a value: its nodes, head first, and the id counter. */
  datatype Pool = Pool(nodes: seq<CustomItemNode>, nextId: int)

  /** The empty pool a fresh list starts from. */
  function EmptyPool(): (p: Pool)
    ensures p.nodes == [] && p.nextId == FirstCustomId
  {
    Pool([], FirstCustomId)
  }

  /** Position of the first node whose name is exactly `name` (`findByName`). */
  function FindName(s: seq<CustomItemNode>, name: string): (r: Option<nat>)
    ensures r.None? <==> forall j :: 0 <= j < |s| ==> s[j].name != name
    ensures r.Some? ==> r.value < |s| && s[r.value].name == name
    ensures r.Some? ==> forall j :: 0 <= j < r.value ==> s[j].name != name
  {
    if s == [] then None
    else if s[0].name == name then Some(0)
    else
      match FindName(s[1..], name)
      case None =>
        assert forall j :: 1 <= j < |s| ==> s[j] == s[1..][j - 1];
        None
      case Some(k) =>
        assert forall j :: 1 <= j <= k ==> s[j] == s[1..][j - 1];
        Some(k + 1)
  }

  /** The purchase count recorded for a name, 0 when the pool has no such node. */
  function CountOf(s: seq<CustomItemNode>, name: string): int
  {
    match FindName(s, name)
    case Some(k) => s[k].purchaseCount
    case None => 0
  }

  /** `addOrUpdate` on the pool: an existing name gets `quantity` added to its
      count; a new name is prepended with id `nextId` and count `quantity`, and
      the counter moves on. */
  function AddedOrUpdated(p: Pool, name: string, price: real, quantity: int): Pool
  {
    match FindName(p.nodes, name)
    case Some(k) =>
      Pool(p.nodes[k := p.nodes[k].(purchaseCount := p.nodes[k].purchaseCount + quantity)], p.nextId)
    case None =>
      Pool([CustomItemNode(name, price, quantity, p.nextId)] + p.nodes, p.nextId + 1)
  }

  /** The id `addOrUpdate` returns: the existing node's id, or the fresh one. */
  function AssignedId(p: Pool, name: string): int
  {
    match FindName(p.nodes, name)
    case Some(k) => p.nodes[k].uniqueId
    case None => p.nextId
  }

  /** The first node named `name` is the one `FindName` finds. */
  lemma FirstNameAt(s: seq<CustomItemNode>, name: string, k: nat)
    requires k < |s| && s[k].name == name
    requires forall j :: 0 <= j < k ==> s[j].name != name
    ensures FindName(s, name) == Some(k)
  {
    assert FindName(s, name).Some?;
  }

  /** `remove` on the nodes: the first exact match is unlinked, the rest keep
      their order; without a match nothing changes. */
  function RemovedByName(s: seq<CustomItemNode>, name: string): seq<CustomItemNode>
  {
    match FindName(s, name)
    case Some(k) => s[..k] + s[k + 1..]
    case None => s
  }

  /** `k` is the node `getHighestPurchaseItem` returns: its count is the largest,
      and every node before it has a strictly smaller one (the walk from the head
      only moves on a strictly greater count). */
  predicate IsFirstMax(s: seq<CustomItemNode>, k: int)
  {
    0 <= k < |s|
    && (forall j :: 0 <= j < |s| ==> s[j].purchaseCount <= s[k].purchaseCount)
    && (forall j :: 0 <= j < k ==> s[j].purchaseCount < s[k].purchaseCount)
  }

  /** The walk of `getHighestPurchaseItem` from position `i`, with `best` the
      position of the first largest count in `s[..i]`. */
  function HighestFrom(s: seq<CustomItemNode>, best: nat, i: nat): (r: nat)
    requires best < i <= |s|
    requires IsFirstMax(s[..i], best)
    ensures IsFirstMax(s, r)
    decreases |s| - i
  {
    if i == |s| then
      assert s[..i] == s;
      best
    else
      var next := if s[i].purchaseCount > s[best].purchaseCount then i else best;
      assert s[..i + 1] == s[..i] + [s[i]];
      HighestFrom(s, next, i + 1)
  }

  /** `getHighestPurchaseItem`: no node for an empty pool, otherwise the first
      node with the largest count. */
  function HighestIndex(s: seq<CustomItemNode>): (r: Option<nat>)
    ensures r.None? <==> s == []
    ensures r.Some? ==> IsFirstMax(s, r.value)
  {
    if s == [] then None else assert s[..1] == [s[0]]; Some(HighestFrom(s, 0, 1))
  }

  /** Only one position is the first largest count. */
  lemma FirstMaxUnique(s: seq<CustomItemNode>, k: int, m: int)
    requires IsFirstMax(s, k) && IsFirstMax(s, m)
    ensures k == m
  {
    assert s[k].purchaseCount == s[m].purchaseCount;
  }

  /** `addOrUpdate` called `n` times with quantity 1, as the restore path does. */
  function AddedRepeatedly(p: Pool, name: string, price: real, n: int): Pool
    decreases n
  {
    if n <= 0 then p else AddedOrUpdated(AddedRepeatedly(p, name, price, n - 1), name, price, 1)
  }

  ghost predicate NamesDistinct(s: seq<CustomItemNode>)
  {
    forall i, j :: 0 <= i < j < |s| ==> s[i].name != s[j].name
  }

  ghost predicate IdsDistinct(s: seq<CustomItemNode>)
  {
    forall i, j :: 0 <= i < j < |s| ==> s[i].uniqueId != s[j].uniqueId
  }

  /** What `addOrUpdate` and `remove` keep: one node per name, one id per node,
      every id handed out by the counter, which never started below 1000. */
  ghost predicate WellFormed(p: Pool)
  {
    NamesDistinct(p.nodes) && IdsDistinct(p.nodes)
    && FirstCustomId <= p.nextId
    && forall j :: 0 <= j < |p.nodes| ==> FirstCustomId <= p.nodes[j].uniqueId < p.nextId
  }

  lemma EmptyPoolWellFormed()
    ensures WellFormed(EmptyPool())
  {
  }

  /** `addOrUpdate` on an existing name: only that count grows, the id comes back,
      the size and the counter stay. */
  lemma AddOrUpdateExisting(p: Pool, name: string, price: real, quantity: int)
    requires FindName(p.nodes, name).Some?
    ensures var k := FindName(p.nodes, name).value;
            var r := AddedOrUpdated(p, name, price, quantity);
            |r.nodes| == |p.nodes| && r.nextId == p.nextId
            && r.nodes[k].purchaseCount == p.nodes[k].purchaseCount + quantity
            && r.nodes[k].name == name && r.nodes[k].price == p.nodes[k].price
            && r.nodes[k].uniqueId == p.nodes[k].uniqueId == AssignedId(p, name)
            && forall j :: 0 <= j < |p.nodes| && j != k ==> r.nodes[j] == p.nodes[j]
  {
  }

  /** `addOrUpdate` on a new name: a node with the fresh id and count `quantity`
      goes in front, the size and the counter grow by one. */
  lemma AddOrUpdateNew(p: Pool, name: string, price: real, quantity: int)
    requires FindName(p.nodes, name).None?
    ensures var r := AddedOrUpdated(p, name, price, quantity);
            r.nodes == [CustomItemNode(name, price, quantity, p.nextId)] + p.nodes
            && |r.nodes| == |p.nodes| + 1 && r.nextId == p.nextId + 1
            && AssignedId(p, name) == p.nextId
  {
  }

  /** After `addOrUpdate` the name's count has grown by `quantity` and every
      other name's count is as before. */
  lemma AddedOrUpdatedCounts(p: Pool, name: string, price: real, quantity: int, other: string)
    ensures CountOf(AddedOrUpdated(p, name, price, quantity).nodes, name) == CountOf(p.nodes, name) + quantity
    ensures other != name ==>
      CountOf(AddedOrUpdated(p, name, price, quantity).nodes, other) == CountOf(p.nodes, other)
  {
    AddedOrUpdatedOwnCount(p, name, price, quantity);
    if other != name {
      AddedOrUpdatedOtherCount(p, name, price, quantity, other);
    }
  }

  lemma AddedOrUpdatedOwnCount(p: Pool, name: string, price: real, quantity: int)
    ensures CountOf(AddedOrUpdated(p, name, price, quantity).nodes, name) == CountOf(p.nodes, name) + quantity
  {
    var r := AddedOrUpdated(p, name, price, quantity);
    match FindName(p.nodes, name)
    case Some(k) =>
      assert forall j :: 0 <= j < |p.nodes| ==> r.nodes[j].name == p.nodes[j].name;
      assert FindName(r.nodes, name) == Some(k);
    case None =>
      assert r.nodes[0].name == name;
      assert FindName(r.nodes, name) == Some(0);
  }

  lemma AddedOrUpdatedOtherCount(p: Pool, name: string, price: real, quantity: int, other: string)
    requires other != name
    ensures CountOf(AddedOrUpdated(p, name, price, quantity).nodes, other) == CountOf(p.nodes, other)
  {
    var r := AddedOrUpdated(p, name, price, quantity);
    match FindName(p.nodes, name)
    case Some(k) =>
      assert forall j :: 0 <= j < |p.nodes| ==> r.nodes[j].name == p.nodes[j].name;
      assert FindName(r.nodes, other) == FindName(p.nodes, other);
    case None =>
      assert forall j :: 0 < j < |r.nodes| ==> r.nodes[j] == p.nodes[j - 1];
      match FindName(p.nodes, other)
      case Some(m) =>
        assert FindName(r.nodes, other) == Some(m + 1);
      case None =>
        assert FindName(r.nodes, other).None?;
  }

  lemma AddedOrUpdatedKeepsWellFormed(p: Pool, name: string, price: real, quantity: int)
    requires WellFormed(p)
    ensures WellFormed(AddedOrUpdated(p, name, price, quantity))
  {
    var r := AddedOrUpdated(p, name, price, quantity);
    match FindName(p.nodes, name)
    case Some(k) =>
      assert forall j :: 0 <= j < |p.nodes| ==>
        r.nodes[j].name == p.nodes[j].name && r.nodes[j].uniqueId == p.nodes[j].uniqueId;
    case None =>
      assert forall j :: 0 < j < |r.nodes| ==> r.nodes[j] == p.nodes[j - 1];
  }

  lemma RemovedByNameKeepsWellFormed(p: Pool, name: string)
    requires WellFormed(p)
    ensures WellFormed(Pool(RemovedByName(p.nodes, name), p.nextId))
  {
    RemovedByNameShape(p.nodes, name);
    match FindName(p.nodes, name)
    case Some(k) =>
      var r := RemovedByName(p.nodes, name);
      forall i, j | 0 <= i < j < |r|
        ensures r[i].name != r[j].name && r[i].uniqueId != r[j].uniqueId
      {
        assert r[i] == p.nodes[if i < k then i else i + 1];
        assert r[j] == p.nodes[if j < k then j else j + 1];
      }
      forall j | 0 <= j < |r|
        ensures FirstCustomId <= r[j].uniqueId < p.nextId
      {
        assert r[j] == p.nodes[if j < k then j else j + 1];
      }
    case None =>
  }

  /** `remove` takes out one node when the name is present, keeping the others
      in order, and leaves the nodes as they were otherwise. */
  lemma RemovedByNameShape(s: seq<CustomItemNode>, name: string)
    ensures FindName(s, name).Some? ==>
      |RemovedByName(s, name)| == |s| - 1
      && var k := FindName(s, name).value;
         forall j :: 0 <= j < |s| - 1 ==> RemovedByName(s, name)[j] == s[if j < k then j else j + 1]
    ensures FindName(s, name).None? ==> RemovedByName(s, name) == s
  {
    match FindName(s, name)
    case Some(k) =>
      var r := s[..k] + s[k + 1..];
      assert forall j :: 0 <= j < |s| - 1 ==> r[j] == s[if j < k then j else j + 1];
    case None =>
  }

  /** In a pool with one node per name, `remove` of a node's own name takes out
      exactly that node: no node with that name is left and the pool is one
      shorter. */
  lemma RemoveOwnName(s: seq<CustomItemNode>, k: nat)
    requires k < |s| && NamesDistinct(s)
    ensures RemovedByName(s, s[k].name) == s[..k] + s[k + 1..]
    ensures |RemovedByName(s, s[k].name)| == |s| - 1
    ensures FindName(RemovedByName(s, s[k].name), s[k].name).None?
  {
    assert FindName(s, s[k].name) == Some(k);
    var r := s[..k] + s[k + 1..];
    assert forall j :: 0 <= j < |r| ==> r[j] == s[if j < k then j else j + 1];
  }

  /** An existing name keeps its position when its count changes, so a second
      `addOrUpdate` adds on the same node. */
  lemma {:induction false} AddedOrUpdatedTwice(p: Pool, name: string, price: real, m: int, n: int)
    ensures AddedOrUpdated(AddedOrUpdated(p, name, price, m), name, price, n)
         == AddedOrUpdated(p, name, price, m + n)
  {
    var s := p.nodes;
    match FindName(s, name)
    case Some(k) =>
      var s1 := s[k := s[k].(purchaseCount := s[k].purchaseCount + m)];
      assert AddedOrUpdated(p, name, price, m) == Pool(s1, p.nextId);
      assert forall j :: 0 <= j < |s| ==> s1[j].name == s[j].name;
      FirstNameAt(s1, name, k);
      assert s1[k := s1[k].(purchaseCount := s1[k].purchaseCount + n)]
          == s[k := s[k].(purchaseCount := s[k].purchaseCount + (m + n))];
    case None =>
      var s1 := [CustomItemNode(name, price, m, p.nextId)] + s;
      assert AddedOrUpdated(p, name, price, m) == Pool(s1, p.nextId + 1);
      FirstNameAt(s1, name, 0);
      assert s1[0 := s1[0].(purchaseCount := s1[0].purchaseCount + n)]
          == [CustomItemNode(name, price, m + n, p.nextId)] + s;
  }

  /** Adding a name `n >= 1` times with quantity 1 is one `addOrUpdate` with
      quantity `n`: a new name gets the counter's id, whatever id it had before. */
  lemma {:induction false} AddedRepeatedlyIsOneAdd(p: Pool, name: string, price: real, n: int)
    requires n >= 1
    ensures AddedRepeatedly(p, name, price, n) == AddedOrUpdated(p, name, price, n)
    decreases n
  {
    if n > 1 {
      AddedRepeatedlyIsOneAdd(p, name, price, n - 1);
      AddedOrUpdatedTwice(p, name, price, n - 1, 1);
    }
  }

  class CustomItemsList {
    var nodes: seq<CustomItemNode>
    var itemCount: int
    var nextId: int

    ghost predicate Valid()
      reads this
    {
      itemCount == |nodes| && WellFormed(State())
    }

    function State(): Pool
      reads this
    {
      Pool(nodes, nextId)
    }

    constructor ()
      ensures Valid() && State() == EmptyPool() && itemCount == 0
    {
      nodes := [];
      itemCount := 0;
      nextId := FirstCustomId;
    }

    function Size(): (n: int)
      reads this
      requires Valid()
      ensures n == |nodes|
    {
      itemCount
    }

    function IsEmpty(): (r: bool)
      reads this
      ensures r <==> nodes == []
    {
      nodes == []
    }

    /** `clear`: unlinks every node and zeroes the count; `nextId` is kept, so ids
        are never handed out twice. */
    method Clear()
      requires Valid()
      modifies this
      ensures Valid() && nodes == [] && itemCount == 0 && nextId == old(nextId)
    {
      while nodes != []
        invariant nextId == old(nextId)
        decreases |nodes|
      {
        nodes := nodes[1..];
      }
      itemCount := 0;
    }

    /** `findByName`: the first node whose name is exactly `name`. */
    method FindByName(name: string) returns (r: Option<nat>)
      requires Valid()
      ensures r == FindName(nodes, name)
    {
      var i := 0;
      while i < |nodes|
        invariant 0 <= i <= |nodes|
        invariant forall j :: 0 <= j < i ==> nodes[j].name != name
      {
        if nodes[i].name == name {
          return Some(i);
        }
        i := i + 1;
      }
      return None;
    }

    /** `addOrUpdate`: merge on an exact name, otherwise prepend with a fresh id;
        returns the node's id. */
    method AddOrUpdate(name: string, price: real, quantity: int) returns (id: int)
      requires Valid()
      modifies this
      ensures Valid()
      ensures State() == AddedOrUpdated(old(State()), name, price, quantity)
      ensures id == AssignedId(old(State()), name)
    {
      AddedOrUpdatedKeepsWellFormed(State(), name, price, quantity);
      var existing := FindByName(name);
      if existing.Some? {
        var k := existing.value;
        nodes := nodes[k := nodes[k].(purchaseCount := nodes[k].purchaseCount + quantity)];
        return nodes[k].uniqueId;
      }
      var newNode := CustomItemNode(name, price, quantity, nextId);
      nextId := nextId + 1;
      nodes := [newNode] + nodes;
      itemCount := itemCount + 1;
      return newNode.uniqueId;
    }

    /** `getHighestPurchaseItem`: no node on an empty pool, otherwise the first
        node from the head with the largest count. */
    method GetHighestPurchaseItem() returns (r: Option<nat>)
      requires Valid()
      ensures r.None? <==> nodes == []
      ensures r.Some? ==> IsFirstMax(nodes, r.value)
      ensures r == HighestIndex(nodes)
    {
      if nodes == [] {
        return None;
      }
      var highest := 0;
      var i := 1;
      while i < |nodes|
        invariant 1 <= i <= |nodes|
        invariant IsFirstMax(nodes[..i], highest)
      {
        assert nodes[..i + 1] == nodes[..i] + [nodes[i]];
        if nodes[i].purchaseCount > nodes[highest].purchaseCount {
          highest := i;
        }
        i := i + 1;
      }
      assert nodes[..i] == nodes;
      FirstMaxUnique(nodes, highest, HighestIndex(nodes).value);
      return Some(highest);
    }

    /** `remove`: unlinks the first node named exactly `name` and returns true;
        returns false and changes nothing when there is none. */
    method Remove(name: string) returns (removed: bool)
      requires Valid()
      modifies this
      ensures Valid()
      ensures removed <==> FindName(old(nodes), name).Some?
      ensures nodes == RemovedByName(old(nodes), name) && nextId == old(nextId)
    {
      RemovedByNameKeepsWellFormed(State(), name);
      if nodes == [] {
        return false;
      }
      if nodes[0].name == name {
        FirstNameAt(nodes, name, 0);
        nodes := nodes[1..];
        itemCount := itemCount - 1;
        return true;
      }
      var current := 0;
      while current + 1 < |nodes|
        invariant 0 <= current < |nodes|
        invariant forall j :: 0 <= j <= current ==> nodes[j].name != name
      {
        if nodes[current + 1].name == name {
          FirstNameAt(nodes, name, current + 1);
          nodes := nodes[..current + 1] + nodes[current + 2..];
          itemCount := itemCount - 1;
          return true;
        }
        current := current + 1;
      }
      return false;
    }
  }
}
