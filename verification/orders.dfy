/** Orders: the validated, immutable record of one trade intent. */
module Orders {
  import opened Wrappers

  datatype OrderType = BUY | SELL

  /** The four fields of an order as passed to its constructor. */
  datatype OrderData = OrderData(userId: string, quantity: real, pricePerKilo: int, orderType: OrderType)

  /** An order that passed validation. The constructor is the only way to
      obtain an order, so no order with a non-positive quantity or price
      exists; a missing user id or order type cannot be represented at all. */
  type Order = o: OrderData | o.quantity > 0.0 && o.pricePerKilo > 0
    witness OrderData("", 1.0, 1, BUY)

  /** The constructor argument a failed check is about. */
  datatype Argument = UserIdArg | QuantityArg | PricePerKiloArg | OrderTypeArg | OrderArg

  /** Missing: a required reference was null (checkNotNull).
      OutOfRange: a number was not strictly positive (checkArgument). */
  datatype Error = Missing(arg: Argument) | OutOfRange(arg: Argument)

  /** The validating constructor. The checks run in the order userId,
      quantity, pricePerKilo, orderType, and the first failing one is reported. */
  function NewOrder(userId: Option<string>, quantity: real, pricePerKilo: int, orderType: Option<OrderType>)
    : (r: Result<Order, Error>)
    ensures userId.None? ==> r == Failure(Missing(UserIdArg))
    ensures userId.Some? && quantity <= 0.0 ==> r == Failure(OutOfRange(QuantityArg))
    ensures userId.Some? && quantity > 0.0 && pricePerKilo <= 0 ==> r == Failure(OutOfRange(PricePerKiloArg))
    ensures userId.Some? && quantity > 0.0 && pricePerKilo > 0 && orderType.None? ==> r == Failure(Missing(OrderTypeArg))
    ensures r.Success? <==> userId.Some? && quantity > 0.0 && pricePerKilo > 0 && orderType.Some?
    ensures r.Success? ==> r.value == OrderData(userId.value, quantity, pricePerKilo, orderType.value)
  {
    if userId.None? then Failure(Missing(UserIdArg))
    else if !(quantity > 0.0) then Failure(OutOfRange(QuantityArg))
    else if !(pricePerKilo > 0) then Failure(OutOfRange(PricePerKiloArg))
    else if orderType.None? then Failure(Missing(OrderTypeArg))
    else Success(OrderData(userId.value, quantity, pricePerKilo, orderType.value))
  }

  /** Every order is obtained by passing its own getters back to the
      constructor: the getters return exactly the constructor arguments. */
  lemma NewOrderFromGetters(o: Order)
    ensures NewOrder(Some(o.userId), o.quantity, o.pricePerKilo, Some(o.orderType)) == Success(o)
  {
  }

  /** The two error kinds: a missing reference is only ever reported for the
      user id or the order type, an out-of-range value only for the quantity or
      the price, and in each case the reported argument really is bad. */
  lemma NewOrderErrorKinds(userId: Option<string>, quantity: real, pricePerKilo: int, orderType: Option<OrderType>)
    ensures NewOrder(userId, quantity, pricePerKilo, orderType).Failure? ==>
      match NewOrder(userId, quantity, pricePerKilo, orderType).error
      case Missing(a) => (a == UserIdArg && userId.None?) || (a == OrderTypeArg && orderType.None?)
      case OutOfRange(a) => (a == QuantityArg && quantity <= 0.0) || (a == PricePerKiloArg && pricePerKilo <= 0)
  {
  }
}
