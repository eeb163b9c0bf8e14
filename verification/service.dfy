/** The live order board service: the registry of live orders, keyed by a
    generated identifier, from which boards are computed on demand. */
module Service {
  import opened Wrappers
  import opened Orders
  import opened BoardItems
  import opened Boards

  /** An order identifier (a random UUID in the running system). */
  type Id = nat

  /** `ids` lists every key of `keys` exactly once, in some order: the order
      in which a hash map happens to iterate over its entries. */
  predicate IsEnumeration(ids: seq<Id>, keys: set<Id>)
  {
    && (forall i, j :: 0 <= i < j < |ids| ==> ids[i] != ids[j])
    && (forall k | k in keys :: k in ids)
    && (forall k | k in ids :: k in keys)
  }

  /** The values of `m` in the order of `ids`. */
  function ValuesIn(m: map<Id, Order>, ids: seq<Id>): (r: seq<Order>)
    requires forall k | k in ids :: k in m
    ensures |r| == |ids| && forall i :: 0 <= i < |ids| ==> r[i] == m[ids[i]]
  {
    seq(|ids|, i requires 0 <= i < |ids| => m[ids[i]])
  }

  class LiveOrderBoardService {
    var registeredOrders: map<Id, Order>
    /** The identifier source: every identifier handed out so far is below it. */
    var nextId: Id

    ghost predicate Valid()
      reads this
    {
      forall id | id in registeredOrders :: id < nextId
    }

    /** A new service holds no orders. */
    constructor ()
      ensures Valid()
      ensures registeredOrders == map[] && nextId == 0
    {
      registeredOrders := map[];
      nextId := 0;
    }

    /** Registers an order under a fresh identifier and returns it; a null
        order is rejected and leaves the registry as it was. */
    method RegisterOrder(order: Option<Order>) returns (r: Result<Id, Error>)
      requires Valid()
      modifies this
      ensures Valid()
      ensures order.None? ==> r == Failure(Missing(OrderArg)) && registeredOrders == old(registeredOrders)
      ensures order.Some? ==> && r.Success?
                              && r.value !in old(registeredOrders)
                              && registeredOrders == old(registeredOrders)[r.value := order.value]
                              && |registeredOrders| == |old(registeredOrders)| + 1
      ensures r.Success? ==> r.value == old(nextId) && nextId == old(nextId) + 1
      ensures r.Failure? ==> nextId == old(nextId)
    {
      if order.None? {
        return Failure(Missing(OrderArg));
      }
      var id := nextId;
      nextId := nextId + 1;
      registeredOrders := registeredOrders[id := order.value];
      r := Success(id);
    }

    /** Builds the order from its fields and registers it: fails exactly when
        the order's constructor fails, and then changes nothing. */
    method RegisterNewOrder(userId: Option<string>, quantity: real, pricePerKilo: int, orderType: Option<OrderType>)
      returns (r: Result<Id, Error>)
      requires Valid()
      modifies this
      ensures Valid()
      ensures var made := NewOrder(userId, quantity, pricePerKilo, orderType);
        && (made.Failure? ==> r == Failure(made.error) && registeredOrders == old(registeredOrders))
        && (made.Success? ==> && r.Success?
                              && r.value !in old(registeredOrders)
                              && registeredOrders == old(registeredOrders)[r.value := made.value])
      ensures r.Success? ==> r.value == old(nextId) && nextId == old(nextId) + 1
      ensures r.Failure? ==> nextId == old(nextId)
    {
      var made := NewOrder(userId, quantity, pricePerKilo, orderType);
      if made.Failure? {
        return Failure(made.error);
      }
      r := RegisterOrder(Some(made.value));
    }

    /** Removes the order under `id` if there is one; an unknown identifier
        is not an error and changes nothing. */
    method CancelOrder(id: Id)
      requires Valid()
      modifies this
      ensures Valid()
      ensures registeredOrders == old(registeredOrders) - {id}
      ensures id !in old(registeredOrders) ==> registeredOrders == old(registeredOrders)
      ensures nextId == old(nextId)
    {
      registeredOrders := registeredOrders - {id};
    }

    /** The live orders by identifier, read-only. */
    method GetLiveOrders() returns (orders: map<Id, Order>)
      ensures orders == registeredOrders
    {
      orders := registeredOrders;
    }

    /** The board of the orders registered right now: the values of the
        registry are collected in the map's iteration order, which is left
        open, and handed to the board. */
    method GetLiveOrderBoard() returns (board: Board)
      ensures exists ids :: IsEnumeration(ids, registeredOrders.Keys) && board == NewBoard(ValuesIn(registeredOrders, ids))
    {
      var remaining := registeredOrders.Keys;
      ghost var ids: seq<Id> := [];
      var orders: seq<Order> := [];
      while remaining != {}
        invariant remaining <= registeredOrders.Keys
        invariant forall i, j :: 0 <= i < j < |ids| ==> ids[i] != ids[j]
        invariant forall k :: k in registeredOrders.Keys <==> k in remaining || k in ids
        invariant forall k | k in ids :: k !in remaining
        invariant orders == ValuesIn(registeredOrders, ids)
        decreases remaining
      {
        var id :| id in remaining;
        ids := ids + [id];
        orders := orders + [registeredOrders[id]];
        remaining := remaining - {id};
      }
      board := NewBoard(orders);
      assert IsEnumeration(ids, registeredOrders.Keys);
    }
  }

  /** Whatever order the map iterates in, the board is the same. */
  lemma BoardIndependentOfIteration(m: map<Id, Order>, ids1: seq<Id>, ids2: seq<Id>)
    requires IsEnumeration(ids1, m.Keys) && IsEnumeration(ids2, m.Keys)
    ensures NewBoard(ValuesIn(m, ids1)) == NewBoard(ValuesIn(m, ids2))
  {
    EnumerationsPermute(m, ids1, ids2);
    BoardPermutationInvariant(ValuesIn(m, ids1), ValuesIn(m, ids2));
  }

  /** Two duplicate-free listings of the same keys yield the same multiset of values. */
  lemma EnumerationsPermute(m: map<Id, Order>, a: seq<Id>, b: seq<Id>)
    requires IsEnumeration(a, m.Keys) && IsEnumeration(b, m.Keys)
    ensures multiset(ValuesIn(m, a)) == multiset(ValuesIn(m, b))
  {
    forall k ensures multiset(a)[k] == multiset(b)[k] {
      DistinctCount(a, k);
      DistinctCount(b, k);
    }
    assert multiset(a) == multiset(b);
    ValuesInPermutation(m, a, b);
  }

  /** In a duplicate-free list every element occurs once. */
  lemma {:induction false} DistinctCount(s: seq<Id>, k: Id)
    requires forall i, j :: 0 <= i < j < |s| ==> s[i] != s[j]
    ensures multiset(s)[k] == if k in s then 1 else 0
  {
    if s != [] {
      assert s == [s[0]] + s[1..];
      assert forall x :: 0 <= x < |s[1..]| ==> s[1..][x] == s[x+1];
      DistinctCount(s[1..], k);
      assert s[0] !in s[1..];
    }
  }

  lemma ValuesInAppend(m: map<Id, Order>, x: seq<Id>, y: seq<Id>)
    requires forall k | k in x + y :: k in m
    ensures ValuesIn(m, x + y) == ValuesIn(m, x) + ValuesIn(m, y)
  {
  }

  /** Listing the same keys in another order permutes the values. */
  lemma {:induction false} ValuesInPermutation(m: map<Id, Order>, a: seq<Id>, b: seq<Id>)
    requires multiset(a) == multiset(b)
    requires forall k | k in a :: k in m
    requires forall k | k in b :: k in m
    ensures multiset(ValuesIn(m, a)) == multiset(ValuesIn(m, b))
    decreases |a|
  {
    if a == [] {
      assert |b| == |multiset(b)| == 0;
    } else {
      assert a[0] in multiset(b);
      var i :| 0 <= i < |b| && b[i] == a[0];
      var front, back := b[..i], b[i+1..];
      assert b == front + [b[i]] + back;
      RemoveMatching(a, b, i);
      ValuesInPermutation(m, a[1..], front + back);
      assert a == [a[0]] + a[1..];
      ValuesInAppend(m, [a[0]], a[1..]);
      ValuesInAppend(m, front + [b[i]], back);
      ValuesInAppend(m, front, [b[i]]);
      ValuesInAppend(m, front, back);
      var vf, vb, v := ValuesIn(m, front), ValuesIn(m, back), ValuesIn(m, [b[i]]);
      calc {
        multiset(ValuesIn(m, b));
        multiset(vf + v + vb);
        multiset(v) + multiset(vf + vb);
        multiset(v) + multiset(ValuesIn(m, front + back));
        multiset(v) + multiset(ValuesIn(m, a[1..]));
        multiset(ValuesIn(m, [a[0]]) + ValuesIn(m, a[1..]));
        multiset(ValuesIn(m, a));
      }
    }
  }

  /** An empty registry has the empty board. */
  lemma EmptyRegistryBoard(ids: seq<Id>)
    requires IsEnumeration(ids, {})
    ensures NewBoard(ValuesIn(map[], ids)) == Board([], [])
  {
    EnumerationSize(ids, {});
    assert ValuesIn(map[], ids) == [];
    EmptyBoard();
  }

  /** An enumeration has exactly as many entries as there are keys. */
  lemma {:induction false} EnumerationSize(ids: seq<Id>, keys: set<Id>)
    requires IsEnumeration(ids, keys)
    ensures |ids| == |keys|
    decreases |ids|
  {
    if ids == [] {
      assert keys == {};
    } else {
      var x, tail := ids[0], ids[1..];
      assert ids == [x] + tail;
      assert x !in tail;
      assert IsEnumeration(tail, keys - {x});
      EnumerationSize(tail, keys - {x});
    }
  }

  /** Registering an order and cancelling the identifier it got gives back
      the registry as it was. */
  method RegisterThenCancel(service: LiveOrderBoardService, order: Order) returns (id: Id)
    requires service.Valid()
    modifies service
    ensures service.Valid()
    ensures service.registeredOrders == old(service.registeredOrders)
  {
    var r := service.RegisterOrder(Some(order));
    id := r.value;
    service.CancelOrder(id);
  }

  /** Cancelling twice is the same as cancelling once. */
  method CancelTwice(service: LiveOrderBoardService, id: Id)
    requires service.Valid()
    modifies service
    ensures service.Valid()
    ensures service.registeredOrders == old(service.registeredOrders) - {id}
  {
    service.CancelOrder(id);
    ghost var once := service.registeredOrders;
    service.CancelOrder(id);
    assert service.registeredOrders == once;
  }

  /** Registering an order, cancelling it and asking for the board gives
      two empty sides. */
  method EmptyBoardAfterCancel(order: Order) returns (board: Board)
    ensures board == Board([], [])
  {
    var service := new LiveOrderBoardService();
    var r := service.RegisterOrder(Some(order));
    service.CancelOrder(r.value);
    assert service.registeredOrders == map[];
    board := service.GetLiveOrderBoard();
    ghost var ids :| IsEnumeration(ids, service.registeredOrders.Keys)
      && board == NewBoard(ValuesIn(service.registeredOrders, ids));
    EmptyRegistryBoard(ids);
  }

  /** A cancelled identifier is never handed out again: cancelling an order
      and registering another cannot make the stale identifier name the new one. */
  method CancelledIdNotReused(service: LiveOrderBoardService, first: Order, second: Order)
    returns (id1: Id, id2: Id)
    requires service.Valid()
    modifies service
    ensures id1 != id2
    ensures id1 !in service.registeredOrders
    ensures id2 in service.registeredOrders && service.registeredOrders[id2] == second
  {
    var r1 := service.RegisterOrder(Some(first));
    id1 := r1.value;
    service.CancelOrder(id1);
    var r2 := service.RegisterOrder(Some(second));
    id2 := r2.value;
  }

  /** A new service, with nothing registered, shows a board with two empty sides. */
  method EmptyBoardOfNewService() returns (board: Board)
    ensures board == Board([], [])
  {
    var service := new LiveOrderBoardService();
    board := service.GetLiveOrderBoard();
    ghost var ids :| IsEnumeration(ids, service.registeredOrders.Keys)
      && board == NewBoard(ValuesIn(service.registeredOrders, ids));
    EmptyRegistryBoard(ids);
  }
}
