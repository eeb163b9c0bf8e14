/** One aggregated price level of the live order board. */
module BoardItems {
  import opened Wrappers
  import opened Orders

  datatype ItemData = ItemData(quantity: real, pricePerKilo: int)

  /** An item that passed the constructor's positivity checks. */
  type Item = i: ItemData | i.quantity > 0.0 && i.pricePerKilo > 0
    witness ItemData(1.0, 1)

  /** The validating constructor: quantity is checked first, then the price. */
  function NewItem(quantity: real, pricePerKilo: int): (r: Result<Item, Error>)
    ensures quantity <= 0.0 ==> r == Failure(OutOfRange(QuantityArg))
    ensures quantity > 0.0 && pricePerKilo <= 0 ==> r == Failure(OutOfRange(PricePerKiloArg))
    ensures r.Success? <==> quantity > 0.0 && pricePerKilo > 0
    ensures r.Success? ==> r.value.quantity == quantity && r.value.pricePerKilo == pricePerKilo
  {
    if !(quantity > 0.0) then Failure(OutOfRange(QuantityArg))
    else if !(pricePerKilo > 0) then Failure(OutOfRange(PricePerKiloArg))
    else Success(ItemData(quantity, pricePerKilo))
  }

  /** Java equals: None stands for a null argument. Comparing the two fields
      is the same as value equality of the items. */
  function Equals(item: Item, other: Option<Item>): (r: bool)
    ensures r <==> other == Some(item)
  {
    other.Some? && other.value.quantity == item.quantity && other.value.pricePerKilo == item.pricePerKilo
  }

  /** equals is an equivalence relation that never holds of null. */
  lemma EqualsIsEquivalence(a: Item, b: Item, c: Item)
    ensures Equals(a, Some(a))
    ensures Equals(a, Some(b)) <==> Equals(b, Some(a))
    ensures Equals(a, Some(b)) && Equals(b, Some(c)) ==> Equals(a, Some(c))
    ensures !Equals(a, None)
  {
  }
}
