# Live order board

This is a Dafny model of the live order board of the Silver Bars marketplace (defpunk/marketplace). Users register orders to buy or sell silver. An order carries:

- a user id;
- a quantity in kilograms;
- a whole price per kilo;
- a side: BUY or SELL.

The service keeps the live orders in a map keyed by a generated identifier. Orders can be registered and cancelled. On request, the service builds a board that summarises the live orders:

- for each side, orders at the same price are merged into one line whose quantity is the sum of theirs;
- sell lines are listed from the cheapest price up;
- buy lines are listed from the dearest price down.

The model has five modules, one file each:

| file | module | models |
|---|---|---|
| `wrappers.dfy` | `Wrappers` | `Option` (a Java `null` is `None`) and `Result` (a thrown exception is `Failure`) |
| `orders.dfy` | `Orders` | the `Order` value and its validating constructor |
| `board_items.dfy` | `BoardItems` | the `LiveOrderBoardItem` value, its validating constructor and its `equals` |
| `boards.dfy` | `Boards` | the `LiveOrderBoard` pipeline: filter by side, group by price with the quantities summed, sort by price |
| `service.dfy` | `Service` | `LiveOrderBoardService`: a class whose `registeredOrders` map is updated in place |

## How the model is built

Validation is stated in the types:

- `Order` and `Item` are subset types whose members have a strictly positive quantity and price. So no invalid order or item can exist, just as the Java constructors throw before an invalid object is built.
- The constructors `NewOrder` and `NewItem` return a `Result`.
- An error names the argument at fault and its kind:
  - `Missing` stands for Guava's `checkNotNull`, which throws a `NullPointerException`;
  - `OutOfRange` stands for `checkArgument`, which throws an `IllegalArgumentException`.

The board pipeline is written as functions, one step of the Java stream at a time:

- `Filter` keeps the orders of one side.
- `Group` stands for `Collectors.toMap` with `Double::sum`. It folds the orders into an association list (`Merge`, `Accumulate`), one entry per price.
- `Items` builds one board item per entry (`LiveOrderItem`).
- `Sort` is a stable insertion sort driven by the price comparator (`OrderPriceComparator`). The buy side uses the reversed comparator (`Compare` with `Descending`).

The board is specified independently of that pipeline by `IsSideView`. A side view:

- is strictly sorted in the side's direction;
- lists exactly the prices at which orders of that side exist;
- gives each price the total quantity (`Quantity`) of that side's orders at the price.

`NewBoard` is proved to meet this specification on both sides. `SideViewUnique` shows the specification has only one solution. From this follow:

- the board depends only on the multiset of orders (`BoardPermutationInvariant`);
- orders of the other side are ignored (`OtherSideIgnored`, `EmptySide`);
- the boards expected for concrete order sets come out as stated (`MergedSellOrders`, `MergedBuyOrders`).

In the registry:

- `UUID.randomUUID()` is replaced by a counter field, `nextId`. The class invariant `Valid()` keeps every registered key below it. Registering advances the counter and cancelling leaves it alone, so no identifier is handed out twice.
- `getLiveOrderBoard` walks the map's keys in an unspecified order (`var id :| id in remaining`), as a `HashMap` does. Its postcondition holds for some enumeration of the keys.
- `BoardIndependentOfIteration` proves that every enumeration gives the same board.

## Model

| member | source | states |
|---|---|---|
| Orders.NewOrder | src/main/java/com/silverbars/marketplace/orders/Order.java:14-23 | A missing user id fails with `Missing(UserIdArg)`. Otherwise a quantity <= 0 fails with `OutOfRange(QuantityArg)`. Otherwise a price <= 0 fails with `OutOfRange(PricePerKiloArg)`. Otherwise a missing order type fails with `Missing(OrderTypeArg)`. So the first failing check, in source order, is reported. Construction succeeds iff all four checks pass, and the order then holds exactly the arguments. |
| Orders.NewOrderFromGetters | src/main/java/com/silverbars/marketplace/orders/Order.java:14-39 | Feeding any order's four getters back into the constructor succeeds and rebuilds the same order. |
| Orders.NewOrderErrorKinds | src/main/java/com/silverbars/marketplace/orders/Order.java:15-18 | A failure is a missing-value error only for the user id or order type, and an out-of-range error only for quantity or price. The argument it names really is null or non-positive. |
| BoardItems.NewItem | src/main/java/com/silverbars/marketplace/liveorderboard/LiveOrderBoardItem.java:12-25 | A quantity <= 0 fails with `OutOfRange(QuantityArg)`. Otherwise a price <= 0 fails with `OutOfRange(PricePerKiloArg)`. Construction succeeds iff both are positive, and the getters then return the arguments. |
| BoardItems.Equals | src/main/java/com/silverbars/marketplace/liveorderboard/LiveOrderBoardItem.java:27-34 | An item equals another object iff that object is not null and is an item with the same quantity and the same price. |
| BoardItems.EqualsIsEquivalence | src/main/java/com/silverbars/marketplace/liveorderboard/LiveOrderBoardItem.java:27-34 | Item equality is reflexive, symmetric and transitive, and no item equals null. |
| Boards.Filter | src/main/java/com/silverbars/marketplace/liveorderboard/LiveOrderBoard.java:36 | An order is kept iff it is in the input and has the requested side. |
| Boards.Merge | src/main/java/com/silverbars/marketplace/liveorderboard/LiveOrderBoard.java:37 | Putting one (price, quantity) pair into the running map adds the price to the key set. It adds the quantity to that price's total and leaves every other total unchanged. |
| Boards.MergeKeepsDistinct | src/main/java/com/silverbars/marketplace/liveorderboard/LiveOrderBoard.java:37 | The running map never holds a price twice. |
| Boards.MergeKeepsPositive | src/main/java/com/silverbars/marketplace/liveorderboard/LiveOrderBoard.java:37 | Merging a positive price and quantity keeps every key and total positive. |
| Boards.Accumulate | src/main/java/com/silverbars/marketplace/liveorderboard/LiveOrderBoard.java:37 | Folding a list of orders into the running map adds their prices to its keys and their quantities to each price's total. It preserves distinct keys and positivity. |
| Boards.Group | src/main/java/com/silverbars/marketplace/liveorderboard/LiveOrderBoard.java:35-37 | The grouped map has exactly the prices of the orders as keys, each once. Each price maps to the sum of the quantities of the orders at it. Every key and total is positive. |
| Boards.LiveOrderItem | src/main/java/com/silverbars/marketplace/liveorderboard/LiveOrderBoard.java:49-51 | An entry becomes the item built by the validating item constructor from its value (the quantity) and its key (the price). That construction cannot fail for a positive entry. |
| Boards.Items | src/main/java/com/silverbars/marketplace/liveorderboard/LiveOrderBoard.java:38-40 | One item per map entry, in entry order, each built by `LiveOrderItem`. |
| Boards.OrderPriceComparator | src/main/java/com/silverbars/marketplace/liveorderboard/LiveOrderBoard.java:45-47 | The comparator is negative, zero or positive exactly when the first item's price is below, equal to or above the second's. |
| Boards.Compare | src/main/java/com/silverbars/marketplace/liveorderboard/LiveOrderBoard.java:29-30 | Ascending compares by price. Descending is the reversed comparator. Either way the comparison agrees with the side's ranking of prices. |
| Boards.Insert | src/main/java/com/silverbars/marketplace/liveorderboard/LiveOrderBoard.java:41 | Inserting an item yields the old items plus that one, as a multiset. |
| Boards.Sort | src/main/java/com/silverbars/marketplace/liveorderboard/LiveOrderBoard.java:41 | The sorted list is a permutation of its input. |
| Boards.InsertSorted | src/main/java/com/silverbars/marketplace/liveorderboard/LiveOrderBoard.java:41 | Inserting into a sorted list keeps it sorted. |
| Boards.InsertStrictlySorted | src/main/java/com/silverbars/marketplace/liveorderboard/LiveOrderBoard.java:41 | Inserting an item whose price is new into a strictly sorted list keeps it strictly sorted. |
| Boards.SortSorted | src/main/java/com/silverbars/marketplace/liveorderboard/LiveOrderBoard.java:41 | The output is sorted by the comparator. It is strictly sorted when the input's prices are distinct. |
| Boards.NewBoard | src/main/java/com/silverbars/marketplace/liveorderboard/LiveOrderBoard.java:28-31 | The sell list is a view of the SELL orders and the buy list a view of the BUY orders. Each lists every price of its side once, with the summed quantity. Sell prices strictly ascend and buy prices strictly descend. |
| Boards.FilterSum | src/main/java/com/silverbars/marketplace/liveorderboard/LiveOrderBoard.java:36-37 | After filtering, the per-price sums and the price set are those of the chosen side's orders alone. |
| Boards.GroupedItemsSummarise | src/main/java/com/silverbars/marketplace/liveorderboard/LiveOrderBoard.java:36-40 | Before sorting, the items have exactly the side's prices, each once, each with that side's total quantity. |
| Boards.SummarisesPermutation | src/main/java/com/silverbars/marketplace/liveorderboard/LiveOrderBoard.java:41 | Sorting does not change which price carries which quantity. |
| Boards.OrderList | src/main/java/com/silverbars/marketplace/liveorderboard/LiveOrderBoard.java:34-43 | Every side list meets its specification: it is strictly sorted in the side's direction, lists exactly the prices at which orders of that side exist, and gives each price the total quantity of that side's orders at it. |
| Boards.StrictlySortedUnique | src/main/java/com/silverbars/marketplace/liveorderboard/LiveOrderBoard.java:41 | Two strictly sorted lists with the same elements are equal. |
| Boards.SideViewUnique | src/main/java/com/silverbars/marketplace/liveorderboard/LiveOrderBoard.java:34-43 | A side's specification has exactly one solution. |
| Boards.QuantityPermutation | src/main/java/com/silverbars/marketplace/liveorderboard/LiveOrderBoard.java:37 | A side's total quantity at a price does not depend on the order of the orders. |
| Boards.BoardPermutationInvariant | src/main/java/com/silverbars/marketplace/liveorderboard/LiveOrderBoard.java:28-43 | Two collections with the same orders, in any order, give the same board. |
| Boards.OtherSideIgnored | src/main/java/com/silverbars/marketplace/liveorderboard/LiveOrderBoard.java:36 | Adding orders of the other side does not change a side's list. |
| Boards.EmptySide | src/main/java/com/silverbars/marketplace/liveorderboard/LiveOrderBoard.java:34-43 | A side with no orders gives an empty list. |
| Boards.EmptyBoard | src/main/java/com/silverbars/marketplace/liveorderboard/LiveOrderBoard.java:28-31 | No orders give two empty lists. |
| Boards.MergedSellOrders | src/test/java/com/silverbars/marketplace/liveorderboard/LiveOrderBoardServiceTest.java:112-126 | Four sell orders: 3.5 kg at 306, 1.2 at 310, 1.5 at 307 and 2.0 at 306. Their board is sell 5.5 at 306, 1.5 at 307 and 1.2 at 310, with an empty buy side. |
| Boards.MergedBuyOrders | src/test/java/com/silverbars/marketplace/liveorderboard/LiveOrderBoardServiceTest.java:154-166 | Three buy orders: 3.5 kg at 310, 3.5 at 306 and 3.5 at 310. Their board is buy 7.0 at 310 then 3.5 at 306, with an empty sell side. |
| Service.LiveOrderBoardService.constructor | src/main/java/com/silverbars/marketplace/liveorderboard/LiveOrderBoardService.java:22 | A new service holds no orders. |
| Service.LiveOrderBoardService.RegisterOrder | src/main/java/com/silverbars/marketplace/liveorderboard/LiveOrderBoardService.java:28-33 | A null order fails with a missing-value error and leaves the map and the identifier source unchanged. Otherwise the order is stored under the next identifier of the counter, which is then advanced, so no identifier is ever handed out twice, even after a cancel; that identifier is returned. The map grows by exactly that entry; every other entry is unchanged. |
| Service.LiveOrderBoardService.RegisterNewOrder | src/main/java/com/silverbars/marketplace/liveorderboard/LiveOrderBoardService.java:24-26 | Fails with the order constructor's error, changing nothing, exactly when that constructor fails. Otherwise it registers the constructed order under the next, never used, identifier. |
| Service.LiveOrderBoardService.CancelOrder | src/main/java/com/silverbars/marketplace/liveorderboard/LiveOrderBoardService.java:35-37 | Removes that key and nothing else, and leaves the identifier source alone. An unknown identifier changes nothing and is not an error. |
| Service.LiveOrderBoardService.GetLiveOrders | src/main/java/com/silverbars/marketplace/liveorderboard/LiveOrderBoardService.java:52-55 | Returns exactly the registered map, without changing it. |
| Service.LiveOrderBoardService.GetLiveOrderBoard | src/main/java/com/silverbars/marketplace/liveorderboard/LiveOrderBoardService.java:48-50 | Returns the board of exactly the current map values, taken in some iteration order of the keys, and changes nothing. |
| Service.BoardIndependentOfIteration | src/main/java/com/silverbars/marketplace/liveorderboard/LiveOrderBoardService.java:48-50 | Any two iteration orders over the map's keys give the same board. |
| Service.EnumerationsPermute | src/main/java/com/silverbars/marketplace/liveorderboard/LiveOrderBoardService.java:49 | Any two iteration orders over the keys list the same values, as a multiset. |
| Service.EnumerationSize | src/main/java/com/silverbars/marketplace/liveorderboard/LiveOrderBoardService.java:49 | An iteration over the keys visits as many entries as there are keys. |
| Service.RegisterThenCancel | src/test/java/com/silverbars/marketplace/liveorderboard/LiveOrderBoardServiceTest.java:61-69 | Registering an order and cancelling the returned identifier restores the map as it was. |
| Service.CancelTwice | src/test/java/com/silverbars/marketplace/liveorderboard/LiveOrderBoardServiceTest.java:71-77 | Cancelling is idempotent: twice is the same as once. |
| Service.EmptyBoardAfterCancel | src/test/java/com/silverbars/marketplace/liveorderboard/LiveOrderBoardServiceTest.java:61-69 | A service whose only order was cancelled is empty again and shows a board with two empty sides. |
| Service.EmptyBoardOfNewService | src/test/java/com/silverbars/marketplace/liveorderboard/LiveOrderBoardServiceTest.java:79-84 | A new service with nothing registered shows a board with two empty sides. |
| Service.CancelledIdNotReused | src/main/java/com/silverbars/marketplace/liveorderboard/LiveOrderBoardService.java:30-31 | After an order is registered and cancelled, the next registration gets a different identifier, so the stale identifier cannot remove the new order. |

## Left out

- IEEE `double` arithmetic:
  - Quantities are exact `real` numbers, so `Double::sum` rounding is not modelled.
  - `Double.compare` in item equality becomes plain equality, so NaN and the two zeros are not modelled.
  - The comparator goes through `comparingDouble`; for whole prices this is the integer order.
- The 32-bit width of `int` prices: prices are unbounded integers. Both constructors reject non-positive prices, and prices are only compared, never added.
- `UUID.randomUUID()`:
  - Identifiers come from a counter that the class invariant keeps fresh.
  - Random identifiers, the collision probability, and the silent overwrite `HashMap.put` would do on a collision are not modelled.
- `HashMap` iteration order: it is left open; any order of the keys is allowed.
- The `unmodifiableCollection` and `unmodifiableMap` wrappers: the model returns values, which cannot be written through.
- Service.LiveOrderBoardService.GetLiveOrders: returns a snapshot of the map. The Java method returns a live read-only view, through which later registrations and cancellations become visible; that aliasing is not modelled.
- `hashCode` of `LiveOrderBoardItem`: hashing is not modelled.
- Guava's exception message texts: only the exception kind and the argument at fault are kept.
- Concurrency: the service is modelled as sequential.
- BoardItems.Equals: the Java `equals` also takes objects of another class and `this == o`. The model's argument is an optional item, so the other-class case is not represented. The identity shortcut is subsumed by the field comparison.
- The getters of `Order`, `LiveOrderBoardItem` and `LiveOrderBoard` are the fields of the Dafny datatypes, so they have no members of their own.
- `OrderType` is a two-valued datatype, `BUY | SELL`. `OrderType.java` is not part of this model.
