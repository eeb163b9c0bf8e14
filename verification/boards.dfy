/** The live order board: a snapshot of all orders, merged per price level
    and sorted for display, sell side cheapest first and buy side highest first. */
module Boards {
  import opened Orders
  import opened BoardItems

  datatype Board = Board(sellOrders: seq<Item>, buyOrders: seq<Item>)

  /** A key/value pair of the price-to-quantity map built while grouping. */
  datatype Entry = Entry(key: int, value: real)

  /** The two comparators of the board: by price, and by price reversed. */
  datatype Direction = Ascending | Descending

  // ---------------------------------------------------------------------------
  // What a side of the board should show, independently of how it is computed.
  // ---------------------------------------------------------------------------

  /** What one order contributes to the level of `side` at price `p`. */
  function Share(o: Order, side: OrderType, p: int): real
  {
    if o.orderType == side && o.pricePerKilo == p then o.quantity else 0.0
  }

  /** Total quantity of the orders on `side` at price `p`. */
  function Quantity(orders: seq<Order>, side: OrderType, p: int): real
  {
    if orders == [] then 0.0
    else Share(orders[0], side, p) + Quantity(orders[1..], side, p)
  }

  /** The prices at which some order on `side` stands. */
  function Prices(orders: seq<Order>, side: OrderType): set<int>
  {
    set o | o in orders && o.orderType == side :: o.pricePerKilo
  }

  function PricesOf(items: seq<Item>): set<int>
  {
    set x | x in items :: x.pricePerKilo
  }

  /** Each item comes strictly earlier in the display order than every later item. */
  predicate StrictlySorted(dir: Direction, items: seq<Item>)
  {
    forall i, j :: 0 <= i < j < |items| ==> Rank(dir, items[i]) < Rank(dir, items[j])
  }

  /** `items` is the board side of `orders` for `side`, displayed in `dir`
      order: one item per price that some order of that side holds, carrying
      the total quantity at that price, in strict display order. */
  ghost predicate IsSideView(items: seq<Item>, orders: seq<Order>, side: OrderType, dir: Direction)
  {
    StrictlySorted(dir, items) && Summarises(items, orders, side)
  }

  /** The items, in any order, are exactly the price levels of `side`, each
      with its total quantity. */
  ghost predicate Summarises(items: seq<Item>, orders: seq<Order>, side: OrderType)
  {
    && PricesOf(items) == Prices(orders, side)
    && forall x | x in items :: x.quantity == Quantity(orders, side, x.pricePerKilo)
  }

  // ---------------------------------------------------------------------------
  // The pipeline: filter, group by price summing quantities, build items, sort.
  // ---------------------------------------------------------------------------

  /** The orders of one side, in encounter order. */
  function Filter(orders: seq<Order>, side: OrderType): (r: seq<Order>)
    ensures forall o :: o in r <==> o in orders && o.orderType == side
  {
    if orders == [] then []
    else (if orders[0].orderType == side then [orders[0]] else []) + Filter(orders[1..], side)
  }

  function Keys(entries: seq<Entry>): set<int>
  {
    set e | e in entries :: e.key
  }

  /** Sum of the values stored under key `k` (under distinct keys: the value). */
  function ValueAt(entries: seq<Entry>, k: int): real
  {
    if entries == [] then 0.0
    else (if entries[0].key == k then entries[0].value else 0.0) + ValueAt(entries[1..], k)
  }

  predicate DistinctKeys(entries: seq<Entry>)
  {
    forall i, j :: 0 <= i < j < |entries| ==> entries[i].key != entries[j].key
  }

  predicate Positive(entries: seq<Entry>)
  {
    forall e | e in entries :: e.key > 0 && e.value > 0.0
  }

  /** One step of the price-to-quantity map collector: a new key is added
      with its value, an existing key has the value added to what it holds. */
  function Merge(entries: seq<Entry>, key: int, value: real): (r: seq<Entry>)
    ensures Keys(r) == Keys(entries) + {key}
    ensures forall k :: ValueAt(r, k) == ValueAt(entries, k) + (if k == key then value else 0.0)
  {
    if entries == [] then [Entry(key, value)]
    else if entries[0].key == key then [Entry(key, entries[0].value + value)] + entries[1..]
    else
      var rest := Merge(entries[1..], key, value);
      assert Keys(entries) == {entries[0].key} + Keys(entries[1..]) by {
        assert forall e :: e in entries <==> e == entries[0] || e in entries[1..];
      }
      assert Keys([entries[0]] + rest) == {entries[0].key} + Keys(rest) by {
        assert forall e :: e in [entries[0]] + rest <==> e == entries[0] || e in rest;
      }
      assert forall k :: (ValueAt([entries[0]] + rest, k)
        == (if entries[0].key == k then entries[0].value else 0.0) + ValueAt(rest, k)) by {
        assert ([entries[0]] + rest)[1..] == rest;
      }
      [entries[0]] + rest
  }

  /** Merging keeps the keys distinct. */
  lemma {:induction false} MergeKeepsDistinct(entries: seq<Entry>, key: int, value: real)
    requires DistinctKeys(entries)
    ensures DistinctKeys(Merge(entries, key, value))
  {
    if entries != [] {
      var r := Merge(entries, key, value);
      if entries[0].key == key {
        assert forall i :: 1 <= i < |r| ==> r[i] == entries[i];
      } else {
        var rest := Merge(entries[1..], key, value);
        assert DistinctKeys(entries[1..]) by {
          assert forall i :: 0 <= i < |entries| - 1 ==> entries[1..][i] == entries[i+1];
        }
        MergeKeepsDistinct(entries[1..], key, value);
        assert entries[0].key !in Keys(entries[1..]) by {
          if entries[0].key in Keys(entries[1..]) {
            var f :| f in entries[1..] && f.key == entries[0].key;
            var j :| 1 <= j < |entries| && entries[j] == f;
            assert false;
          }
        }
        forall j | 0 <= j < |rest| ensures rest[j].key != entries[0].key {
          assert rest[j] in rest;
          assert rest[j].key in Keys(rest);
        }
        assert forall i :: 1 <= i < |r| ==> r[i] == rest[i-1];
      }
    }
  }

  /** Merging a positive key and value keeps all entries positive. */
  lemma {:induction false} MergeKeepsPositive(entries: seq<Entry>, key: int, value: real)
    requires Positive(entries) && key > 0 && value > 0.0
    ensures Positive(Merge(entries, key, value))
  {
    if entries != [] && entries[0].key != key {
      MergeKeepsPositive(entries[1..], key, value);
    }
  }

  /** Sum of the quantities of the orders at price `p`, whatever their side. */
  function PriceSum(orders: seq<Order>, p: int): real
  {
    if orders == [] then 0.0
    else (if orders[0].pricePerKilo == p then orders[0].quantity else 0.0) + PriceSum(orders[1..], p)
  }

  function PriceSet(orders: seq<Order>): set<int>
  {
    set o | o in orders :: o.pricePerKilo
  }

  /** The collector folded over the orders in encounter order. */
  function Accumulate(entries: seq<Entry>, orders: seq<Order>): (r: seq<Entry>)
    ensures Keys(r) == Keys(entries) + PriceSet(orders)
    ensures forall k :: ValueAt(r, k) == ValueAt(entries, k) + PriceSum(orders, k)
    ensures DistinctKeys(entries) ==> DistinctKeys(r)
    ensures Positive(entries) ==> Positive(r)
    decreases |orders|
  {
    if orders == [] then entries
    else
      assert PriceSet(orders) == {orders[0].pricePerKilo} + PriceSet(orders[1..]) by {
        assert forall o :: o in orders <==> o == orders[0] || o in orders[1..];
      }
      var merged := Merge(entries, orders[0].pricePerKilo, orders[0].quantity);
      assert DistinctKeys(entries) ==> DistinctKeys(merged) by {
        if DistinctKeys(entries) { MergeKeepsDistinct(entries, orders[0].pricePerKilo, orders[0].quantity); }
      }
      assert Positive(entries) ==> Positive(merged) by {
        if Positive(entries) { MergeKeepsPositive(entries, orders[0].pricePerKilo, orders[0].quantity); }
      }
      Accumulate(Merge(entries, orders[0].pricePerKilo, orders[0].quantity), orders[1..])
  }

  /** The price-to-quantity map of `orders`, in first-occurrence order. */
  function Group(orders: seq<Order>): (r: seq<Entry>)
    ensures Keys(r) == PriceSet(orders)
    ensures forall k :: ValueAt(r, k) == PriceSum(orders, k)
    ensures DistinctKeys(r) && Positive(r)
  {
    Accumulate([], orders)
  }

  /** Builds a board item from a map entry (quantity from the value, price
      from the key); the item constructor's checks always pass here. */
  function LiveOrderItem(e: Entry): (r: Item)
    requires e.key > 0 && e.value > 0.0
    ensures NewItem(e.value, e.key) == Wrappers.Success(r)
  {
    ItemData(e.value, e.key)
  }

  function Items(entries: seq<Entry>): (r: seq<Item>)
    requires Positive(entries)
    ensures |r| == |entries|
    ensures forall i :: 0 <= i < |r| ==> r[i] == LiveOrderItem(entries[i])
  {
    seq(|entries|, i requires 0 <= i < |entries| => LiveOrderItem(entries[i]))
  }

  /** Comparison by price, -1, 0 or 1. */
  function OrderPriceComparator(a: Item, b: Item): (r: int)
    ensures r < 0 <==> a.pricePerKilo < b.pricePerKilo
    ensures r == 0 <==> a.pricePerKilo == b.pricePerKilo
    ensures r > 0 <==> a.pricePerKilo > b.pricePerKilo
  {
    if a.pricePerKilo < b.pricePerKilo then -1
    else if a.pricePerKilo == b.pricePerKilo then 0
    else 1
  }

  /** The position of an item's price in the display order of `dir`:
      the price itself when ascending, its negation when descending. */
  function Rank(dir: Direction, x: Item): int
  {
    if dir == Ascending then x.pricePerKilo else -x.pricePerKilo
  }

  /** The comparator for a direction; the descending one is the reversed
      comparator, which compares its arguments the other way round. */
  function Compare(dir: Direction, a: Item, b: Item): (r: int)
    ensures r <= 0 <==> Rank(dir, a) <= Rank(dir, b)
    ensures r < 0 <==> Rank(dir, a) < Rank(dir, b)
  {
    match dir
    case Ascending => OrderPriceComparator(a, b)
    case Descending => OrderPriceComparator(b, a)
  }

  /** Each item comes no later in the display order than every later item. */
  predicate Sorted(dir: Direction, items: seq<Item>)
  {
    forall i, j :: 0 <= i < j < |items| ==> Rank(dir, items[i]) <= Rank(dir, items[j])
  }

  predicate DistinctPrices(items: seq<Item>)
  {
    forall i, j :: 0 <= i < j < |items| ==> items[i].pricePerKilo != items[j].pricePerKilo
  }

  /** Inserts `x` before the first element it does not compare above. */
  function Insert(dir: Direction, x: Item, items: seq<Item>): (r: seq<Item>)
    ensures multiset(r) == multiset(items) + multiset{x}
  {
    if items == [] then [x]
    else if Compare(dir, x, items[0]) <= 0 then [x] + items
    else
      assert items == [items[0]] + items[1..];
      [items[0]] + Insert(dir, x, items[1..])
  }

  /** A stable sort by the comparator of `dir`. */
  function Sort(dir: Direction, items: seq<Item>): (r: seq<Item>)
    ensures multiset(r) == multiset(items)
  {
    if items == [] then []
    else
      assert items == [items[0]] + items[1..];
      Insert(dir, items[0], Sort(dir, items[1..]))
  }

  /** Putting `x` in front of a list keeps it sorted when `x` comes no later
      than its first element (strictly: strictly earlier). */
  lemma PrependSorted(dir: Direction, x: Item, items: seq<Item>)
    requires items != [] ==> Rank(dir, x) <= Rank(dir, items[0])
    requires Sorted(dir, items)
    ensures Sorted(dir, [x] + items)
    ensures StrictlySorted(dir, items) && (items != [] ==> Rank(dir, x) < Rank(dir, items[0]))
      ==> StrictlySorted(dir, [x] + items)
  {
    var r := [x] + items;
    assert forall j :: 1 <= j < |r| ==> r[j] == items[j-1];
  }

  /** Inserting into a sorted list keeps it sorted. */
  lemma {:induction false} InsertSorted(dir: Direction, x: Item, items: seq<Item>)
    requires Sorted(dir, items)
    ensures Sorted(dir, Insert(dir, x, items))
  {
    if items != [] && Compare(dir, x, items[0]) > 0 {
      var rest := Insert(dir, x, items[1..]);
      InsertSorted(dir, x, items[1..]);
      assert rest[0] in multiset(rest);
      assert rest[0] == x || rest[0] in items[1..];
      PrependSorted(dir, items[0], rest);
    } else {
      PrependSorted(dir, x, items);
    }
  }

  /** Inserting a new price into a strictly sorted list keeps it strictly sorted. */
  lemma {:induction false} InsertStrictlySorted(dir: Direction, x: Item, items: seq<Item>)
    requires StrictlySorted(dir, items) && x.pricePerKilo !in PricesOf(items)
    ensures StrictlySorted(dir, Insert(dir, x, items))
  {
    if items != [] {
      assert items[0] in items;
      if Compare(dir, x, items[0]) > 0 {
        var rest := Insert(dir, x, items[1..]);
        assert PricesOf(items[1..]) <= PricesOf(items);
        InsertStrictlySorted(dir, x, items[1..]);
        InsertSorted(dir, x, items[1..]);
        assert rest[0] in multiset(rest);
        assert rest[0] == x || rest[0] in items[1..];
        PrependSorted(dir, items[0], rest);
      } else {
        PrependSorted(dir, x, items);
      }
    }
  }

  /** The sort yields a sorted list, strictly sorted when prices are distinct. */
  lemma {:induction false} SortSorted(dir: Direction, items: seq<Item>)
    ensures Sorted(dir, Sort(dir, items))
    ensures DistinctPrices(items) ==> StrictlySorted(dir, Sort(dir, items))
  {
    if items != [] {
      var rest := Sort(dir, items[1..]);
      SortSorted(dir, items[1..]);
      InsertSorted(dir, items[0], rest);
      if DistinctPrices(items) {
        assert DistinctPrices(items[1..]) by {
          forall i, j | 0 <= i < j < |items[1..]| ensures items[1..][i].pricePerKilo != items[1..][j].pricePerKilo {
            assert items[1..][i] == items[i+1] && items[1..][j] == items[j+1];
          }
        }
        forall y | y in rest ensures y.pricePerKilo != items[0].pricePerKilo {
          assert y in multiset(rest);
          var k :| 1 <= k < |items| && items[k] == y;
        }
        InsertStrictlySorted(dir, items[0], rest);
      }
    }
  }

  /** One side of the board: the orders of `side`, merged per price and
      sorted in `dir` order. */
  function OrderList(orders: seq<Order>, side: OrderType, dir: Direction): (r: seq<Item>)
    ensures IsSideView(r, orders, side, dir)
  {
    var items := Items(Group(Filter(orders, side)));
    GroupedItemsSummarise(orders, side);
    SortSorted(dir, items);
    SummarisesPermutation(items, Sort(dir, items), orders, side);
    Sort(dir, items)
  }

  /** The board of a collection of orders: sell side ascending, buy side descending. */
  function NewBoard(orders: seq<Order>): (b: Board)
    ensures IsSideView(b.sellOrders, orders, SELL, Ascending)
    ensures IsSideView(b.buyOrders, orders, BUY, Descending)
    ensures forall i, j :: 0 <= i < j < |b.sellOrders| ==> b.sellOrders[i].pricePerKilo < b.sellOrders[j].pricePerKilo
    ensures forall i, j :: 0 <= i < j < |b.buyOrders| ==> b.buyOrders[i].pricePerKilo > b.buyOrders[j].pricePerKilo
  {
    Board(OrderList(orders, SELL, Ascending), OrderList(orders, BUY, Descending))
  }

  // ---------------------------------------------------------------------------
  // Lemmas
  // ---------------------------------------------------------------------------

  /** Filtering a side, then summing per price, gives the side's quantity. */
  lemma {:induction false} FilterSum(orders: seq<Order>, side: OrderType, p: int)
    ensures PriceSum(Filter(orders, side), p) == Quantity(orders, side, p)
    ensures PriceSet(Filter(orders, side)) == Prices(orders, side)
  {
    if orders != [] {
      FilterSum(orders[1..], side, p);
      var head := if orders[0].orderType == side then [orders[0]] else [];
      PriceSumAppend(head, Filter(orders[1..], side), p);
      assert PriceSum(head, p) == (if orders[0].orderType == side && orders[0].pricePerKilo == p then orders[0].quantity else 0.0) by {
        if head != [] { assert head[1..] == []; }
      }
    }
  }

  lemma {:induction false} PriceSumAppend(a: seq<Order>, b: seq<Order>, p: int)
    ensures PriceSum(a + b, p) == PriceSum(a, p) + PriceSum(b, p)
  {
    if a == [] {
      assert a + b == b;
    } else {
      assert (a + b)[0] == a[0] && (a + b)[1..] == a[1..] + b;
      PriceSumAppend(a[1..], b, p);
    }
  }

  /** Under distinct keys, an entry's value is all that is stored under its key. */
  lemma {:induction false} ValueAtDistinct(entries: seq<Entry>, i: int)
    requires DistinctKeys(entries) && 0 <= i < |entries|
    ensures ValueAt(entries, entries[i].key) == entries[i].value
  {
    if i == 0 {
      ValueAtAbsent(entries[1..], entries[0].key);
    } else {
      ValueAtDistinct(entries[1..], i - 1);
    }
  }

  lemma {:induction false} ValueAtAbsent(entries: seq<Entry>, k: int)
    requires forall e | e in entries :: e.key != k
    ensures ValueAt(entries, k) == 0.0
  {
    if entries != [] {
      ValueAtAbsent(entries[1..], k);
    }
  }

  /** The items built from a map carry exactly the map's keys as prices. */
  lemma ItemsPrices(entries: seq<Entry>)
    requires Positive(entries)
    ensures PricesOf(Items(entries)) == Keys(entries)
  {
    var items := Items(entries);
    forall p | p in Keys(entries) ensures p in PricesOf(items) {
      var e :| e in entries && e.key == p;
      var i :| 0 <= i < |entries| && entries[i] == e;
      assert items[i] in items;
    }
  }

  /** Under distinct keys, each built item carries the total stored under its price. */
  lemma ItemsQuantities(entries: seq<Entry>)
    requires Positive(entries) && DistinctKeys(entries)
    ensures forall x | x in Items(entries) :: x.quantity == ValueAt(entries, x.pricePerKilo)
  {
    var items := Items(entries);
    forall x | x in items ensures x.quantity == ValueAt(entries, x.pricePerKilo) {
      var j :| 0 <= j < |items| && items[j] == x;
      ValueAtDistinct(entries, j);
    }
  }

  /** Before sorting, the items built from the grouped orders of a side
      already summarise that side, one item per price. */
  lemma GroupedItemsSummarise(orders: seq<Order>, side: OrderType)
    ensures var items := Items(Group(Filter(orders, side)));
      Summarises(items, orders, side) && DistinctPrices(items)
  {
    var filtered := Filter(orders, side);
    var entries := Group(filtered);
    var items := Items(entries);
    forall p ensures PriceSum(filtered, p) == Quantity(orders, side, p) && PriceSet(filtered) == Prices(orders, side) {
      FilterSum(orders, side, p);
    }
    ItemsPrices(entries);
    ItemsQuantities(entries);
    assert DistinctPrices(items);
    assert PricesOf(items) == Prices(orders, side);
  }

  /** Reordering the items keeps them a summary of the side. */
  lemma SummarisesPermutation(a: seq<Item>, b: seq<Item>, orders: seq<Order>, side: OrderType)
    requires Summarises(a, orders, side) && multiset(a) == multiset(b)
    ensures Summarises(b, orders, side)
  {
    forall x ensures x in a <==> x in b {
      assert x in a <==> x in multiset(a);
    }
    assert PricesOf(a) == PricesOf(b);
  }

  /** Two strictly sorted sequences with the same elements are equal. */
  lemma {:induction false} StrictlySortedUnique(dir: Direction, a: seq<Item>, b: seq<Item>)
    requires StrictlySorted(dir, a) && StrictlySorted(dir, b)
    requires forall x :: x in a <==> x in b
    ensures a == b
  {
    assert b != [] ==> b[0] in a;
    assert a != [] ==> a[0] in b;
    if a != [] && b != [] {
      var a0, b0 := a[0], b[0];
      forall y | y in a[1..] ensures Rank(dir, a[0]) < Rank(dir, y) {
        var k :| 0 <= k < |a[1..]| && a[1..][k] == y;
        assert a[k+1] == y;
      }
      forall y | y in b[1..] ensures Rank(dir, b[0]) < Rank(dir, y) {
        var k :| 0 <= k < |b[1..]| && b[1..][k] == y;
        assert b[k+1] == y;
      }
      var ta, tb := a[1..], b[1..];
      assert a == [a[0]] + ta && b == [b[0]] + tb;
      assert b0 == a0 || b0 in ta;
      assert a0 == b0 || a0 in tb;
      assert a0 == b0;
      forall x ensures x in a[1..] <==> x in b[1..] {
        assert x in a <==> x == a[0] || x in a[1..];
        assert x in b <==> x == b[0] || x in b[1..];
      }
      StrictlySortedUnique(dir, a[1..], b[1..]);
    }
  }

  /** The specification of a board side determines it completely. */
  lemma SideViewUnique(r1: seq<Item>, r2: seq<Item>, orders: seq<Order>, side: OrderType, dir: Direction)
    requires IsSideView(r1, orders, side, dir) && IsSideView(r2, orders, side, dir)
    ensures r1 == r2
  {
    forall x ensures x in r1 ==> x in r2 {
      if x in r1 {
        assert x.pricePerKilo in PricesOf(r2);
        var y :| y in r2 && y.pricePerKilo == x.pricePerKilo;
        var i :| 0 <= i < |r1| && r1[i] == x;
        var j :| 0 <= j < |r2| && r2[j] == y;
      }
    }
    forall x ensures x in r2 ==> x in r1 {
      if x in r2 {
        assert x.pricePerKilo in PricesOf(r1);
        var y :| y in r1 && y.pricePerKilo == x.pricePerKilo;
        var i :| 0 <= i < |r2| && r2[i] == x;
        var j :| 0 <= j < |r1| && r1[j] == y;
      }
    }
    StrictlySortedUnique(dir, r1, r2);
  }

  lemma {:induction false} QuantityAppend(a: seq<Order>, b: seq<Order>, side: OrderType, p: int)
    ensures Quantity(a + b, side, p) == Quantity(a, side, p) + Quantity(b, side, p)
  {
    if a == [] {
      assert a + b == b;
    } else {
      assert (a + b)[0] == a[0] && (a + b)[1..] == a[1..] + b;
      QuantityAppend(a[1..], b, side, p);
    }
  }

  /** Taking out the `i`-th order takes out its contribution. */
  lemma QuantityRemove(b: seq<Order>, i: int, side: OrderType, p: int)
    requires 0 <= i < |b|
    ensures Quantity(b, side, p) == Quantity([b[i]], side, p) + Quantity(b[..i] + b[i+1..], side, p)
  {
    assert b == b[..i] + ([b[i]] + b[i+1..]);
    QuantityAppend(b[..i], [b[i]] + b[i+1..], side, p);
    QuantityAppend([b[i]], b[i+1..], side, p);
    QuantityAppend(b[..i], b[i+1..], side, p);
  }

  /** Taking the first element of `a` and a matching one of `b` out of two
      permutations of each other leaves permutations of each other. */
  lemma RemoveMatching<T>(a: seq<T>, b: seq<T>, i: int)
    requires multiset(a) == multiset(b) && a != [] && 0 <= i < |b| && b[i] == a[0]
    ensures multiset(a[1..]) == multiset(b[..i] + b[i+1..])
  {
    var rest := b[..i] + b[i+1..];
    assert a == [a[0]] + a[1..];
    assert b == b[..i] + [b[i]] + b[i+1..];
    assert multiset(b) == multiset(b[..i]) + multiset{b[i]} + multiset(b[i+1..]);
    assert multiset(rest) == multiset(b[..i]) + multiset(b[i+1..]);
    assert multiset(a) == multiset(a[1..]) + multiset{a[0]};
    forall x ensures multiset(a[1..])[x] == multiset(rest)[x] {
      assert (multiset(a[1..]) + multiset{a[0]})[x] == (multiset(rest) + multiset{a[0]})[x];
    }
  }

  /** The quantity at a price does not depend on the order of the orders. */
  lemma {:induction false} QuantityPermutation(a: seq<Order>, b: seq<Order>, side: OrderType, p: int)
    requires multiset(a) == multiset(b)
    ensures Quantity(a, side, p) == Quantity(b, side, p)
    decreases |a|
  {
    if a == [] {
      assert |b| == |multiset(b)| == 0;
    } else {
      assert a[0] in multiset(b);
      var i :| 0 <= i < |b| && b[i] == a[0];
      var rest := b[..i] + b[i+1..];
      RemoveMatching(a, b, i);
      QuantityPermutation(a[1..], rest, side, p);
      QuantityRemove(b, i, side, p);
      QuantityRemove(a, 0, side, p);
      assert a[..0] + a[1..] == a[1..];
    }
  }

  /** The board depends only on the multiset of orders, not on the order in
      which the collection yields them. */
  lemma BoardPermutationInvariant(a: seq<Order>, b: seq<Order>)
    requires multiset(a) == multiset(b)
    ensures NewBoard(a) == NewBoard(b)
  {
    forall o ensures o in a <==> o in b {
      assert o in a <==> o in multiset(a);
    }
    assert Prices(a, SELL) == Prices(b, SELL);
    assert Prices(a, BUY) == Prices(b, BUY);
    forall side, p ensures Quantity(a, side, p) == Quantity(b, side, p) {
      QuantityPermutation(a, b, side, p);
    }
    SideViewUnique(NewBoard(a).sellOrders, NewBoard(b).sellOrders, b, SELL, Ascending);
    SideViewUnique(NewBoard(a).buyOrders, NewBoard(b).buyOrders, b, BUY, Descending);
  }

  /** Orders of the other side never change a side of the board: the buy
      list is built from BUY orders only and the sell list from SELL orders only. */
  lemma OtherSideIgnored(orders: seq<Order>, extra: seq<Order>, side: OrderType, dir: Direction)
    requires forall o | o in extra :: o.orderType != side
    ensures OrderList(orders + extra, side, dir) == OrderList(orders, side, dir)
  {
    var r := OrderList(orders, side, dir);
    forall p ensures Quantity(orders + extra, side, p) == Quantity(orders, side, p) {
      QuantityAppend(orders, extra, side, p);
      QuantityOtherSide(extra, side, p);
    }
    assert Prices(orders + extra, side) == Prices(orders, side);
    SideViewUnique(r, OrderList(orders + extra, side, dir), orders + extra, side, dir);
  }

  lemma {:induction false} QuantityOtherSide(orders: seq<Order>, side: OrderType, p: int)
    requires forall o | o in orders :: o.orderType != side
    ensures Quantity(orders, side, p) == 0.0
  {
    if orders != [] {
      assert orders[0] in orders;
      QuantityOtherSide(orders[1..], side, p);
    }
  }

  lemma FirstPriceListed(items: seq<Item>)
    ensures items != [] ==> items[0].pricePerKilo in PricesOf(items)
  {
  }

  /** A side with no orders gives an empty list, not an error. */
  lemma EmptySide(orders: seq<Order>, side: OrderType, dir: Direction)
    requires forall o | o in orders :: o.orderType != side
    ensures OrderList(orders, side, dir) == []
  {
    var r := OrderList(orders, side, dir);
    assert Prices(orders, side) == {};
    FirstPriceListed(r);
  }

  /** No orders at all: both sides are empty. */
  lemma EmptyBoard()
    ensures NewBoard([]) == Board([], [])
  {
    EmptySide([], SELL, Ascending);
    EmptySide([], BUY, Descending);
  }

  /** The quantity of a list is the first order's share plus the rest's. */
  lemma QuantityCons(o: Order, rest: seq<Order>, side: OrderType, p: int)
    ensures Quantity([o] + rest, side, p) == Share(o, side, p) + Quantity(rest, side, p)
  {
    assert ([o] + rest)[1..] == rest;
  }

  /** The quantity of a list of three or four orders, one order at a time. */
  lemma QuantityOfFour(o1: Order, o2: Order, o3: Order, o4: Order, side: OrderType, p: int)
    ensures Quantity([o1, o2, o3, o4], side, p)
      == Share(o1, side, p) + Share(o2, side, p) + Share(o3, side, p) + Share(o4, side, p)
    ensures Quantity([o1, o2, o3], side, p) == Share(o1, side, p) + Share(o2, side, p) + Share(o3, side, p)
  {
    var none: seq<Order> := [];
    QuantityCons(o4, none, side, p);
    QuantityCons(o3, [o4], side, p);
    QuantityCons(o3, none, side, p);
    QuantityCons(o2, [o3, o4], side, p);
    QuantityCons(o2, [o3], side, p);
    QuantityCons(o1, [o2, o3, o4], side, p);
    QuantityCons(o1, [o2, o3], side, p);
    assert [o4] == [o4] + none && [o3] == [o3] + none;
    assert [o3, o4] == [o3] + [o4] && [o2, o3, o4] == [o2] + [o3, o4] && [o1, o2, o3, o4] == [o1] + [o2, o3, o4];
    assert [o2, o3] == [o2] + [o3] && [o1, o2, o3] == [o1] + [o2, o3];
  }

  function SellScenario(): seq<Order>
  {
    [OrderData("User1", 3.5, 306, SELL), OrderData("User2", 1.2, 310, SELL),
     OrderData("User3", 1.5, 307, SELL), OrderData("User4", 2.0, 306, SELL)]
  }

  function BuyScenario(): seq<Order>
  {
    [OrderData("User2", 3.5, 310, BUY), OrderData("User1", 3.5, 306, BUY), OrderData("User3", 3.5, 310, BUY)]
  }

  /** The board levels the sell scenario is expected to show. */
  function SellLevels(): seq<Item>
  {
    [ItemData(5.5, 306), ItemData(1.5, 307), ItemData(1.2, 310)]
  }

  /** The sell scenario's total quantity at each of its prices. */
  lemma SellScenarioQuantities()
    ensures Quantity(SellScenario(), SELL, 306) == 5.5
    ensures Quantity(SellScenario(), SELL, 307) == 1.5
    ensures Quantity(SellScenario(), SELL, 310) == 1.2
  {
    var orders := SellScenario();
    QuantityOfFour(orders[0], orders[1], orders[2], orders[3], SELL, 306);
    QuantityOfFour(orders[0], orders[1], orders[2], orders[3], SELL, 307);
    QuantityOfFour(orders[0], orders[1], orders[2], orders[3], SELL, 310);
    assert orders == [orders[0], orders[1], orders[2], orders[3]];
  }

  /** The sell scenario holds orders at three prices, and none to buy. */
  lemma SellScenarioPrices()
    ensures Prices(SellScenario(), SELL) == {306, 307, 310}
    ensures Prices(SellScenario(), BUY) == {}
  {
    var orders := SellScenario();
    assert orders[0] in orders && orders[1] in orders && orders[2] in orders;
  }

  lemma SellScenarioView()
    ensures IsSideView(SellLevels(), SellScenario(), SELL, Ascending)
    ensures IsSideView([], SellScenario(), BUY, Descending)
  {
    var orders := SellScenario();
    var expected := SellLevels();
    SellScenarioQuantities();
    SellScenarioPrices();
    assert PricesOf(expected) == {306, 307, 310} by {
      assert expected[0] in expected && expected[1] in expected && expected[2] in expected;
    }
    forall x | x in expected ensures x.quantity == Quantity(orders, SELL, x.pricePerKilo) {
      assert x == expected[0] || x == expected[1] || x == expected[2];
    }
  }

  /** The board levels the buy scenario is expected to show. */
  function BuyLevels(): seq<Item>
  {
    [ItemData(7.0, 310), ItemData(3.5, 306)]
  }

  lemma BuyScenarioView()
    ensures IsSideView(BuyLevels(), BuyScenario(), BUY, Descending)
    ensures IsSideView([], BuyScenario(), SELL, Ascending)
  {
    var orders := BuyScenario();
    var expected := BuyLevels();
    QuantityOfFour(orders[0], orders[1], orders[2], orders[2], BUY, 306);
    QuantityOfFour(orders[0], orders[1], orders[2], orders[2], BUY, 310);
    assert orders == [orders[0], orders[1], orders[2]];
    assert Prices(orders, BUY) == {306, 310} by {
      assert orders[0] in orders && orders[1] in orders;
    }
    assert PricesOf(expected) == {306, 310} by {
      assert expected[0] in expected && expected[1] in expected;
    }
    forall x | x in expected ensures x.quantity == Quantity(orders, BUY, x.pricePerKilo) {
      assert x == expected[0] || x == expected[1];
    }
  }

  /** A board is determined by the specifications of its two sides. */
  lemma BoardFromViews(orders: seq<Order>, sells: seq<Item>, buys: seq<Item>)
    requires IsSideView(sells, orders, SELL, Ascending) && IsSideView(buys, orders, BUY, Descending)
    ensures NewBoard(orders) == Board(sells, buys)
  {
    SideViewUnique(NewBoard(orders).sellOrders, sells, orders, SELL, Ascending);
    SideViewUnique(NewBoard(orders).buyOrders, buys, orders, BUY, Descending);
  }

  /** Four sell orders, two of them at 306: the levels are merged and listed
      cheapest first, and the buy side stays empty. */
  lemma MergedSellOrders()
    ensures NewBoard(SellScenario()) == Board(SellLevels(), [])
  {
    SellScenarioView();
    BoardFromViews(SellScenario(), SellLevels(), []);
  }

  /** Three buy orders, two of them at 310: the levels are merged and listed
      highest first, and the sell side stays empty. */
  lemma MergedBuyOrders()
    ensures NewBoard(BuyScenario()) == Board([], BuyLevels())
  {
    BuyScenarioView();
    BoardFromViews(BuyScenario(), [], BuyLevels());
  }
}
