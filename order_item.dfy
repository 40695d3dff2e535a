/** `OrderItem`: one line of an order (order/domain/entities/order_item.py). */
module OrderItems {
  import opened Errors
  import opened Ids
  import opened MoneyValues

  /** A dish, how many of it and the price captured when the order was placed. */
  datatype OrderItem = OrderItem(dishId: Uuid, quantity: int, price: Money) {

    /** What `__post_init__` guarantees, together with the price's own invariant. */
    predicate Valid()
    {
      quantity >= 1 && price.Valid()
    }
  }

  /**
   * `OrderItem(dish_id, quantity, price)` and `OrderItem.create`, which do the same:
   * a quantity below one raises; there is no upper bound and the price is not re-checked.
   */
  function NewOrderItem(dishId: Uuid, quantity: int, price: Money): (r: Result<OrderItem>)
    ensures r.Ok? <==> quantity >= 1
    ensures r.Ok? ==> r.value.dishId == dishId && r.value.quantity == quantity && r.value.price == price
    ensures r.Err? ==> r.error == Raise(InvariantViolationError, "Quantity must be at least 1")
  {
    if quantity < 1 then Err(Raise(InvariantViolationError, "Quantity must be at least 1"))
    else Ok(OrderItem(dishId, quantity, price))
  }

  /**
   * An item built from raw fields, as both the create-order use case and the
   * order mapper build it: the `Money` is constructed first (it is an argument),
   * then the item checks its quantity.
   */
  function ItemFromFields(dishId: Uuid, quantity: int, amount: real, currency: string): (r: Result<OrderItem>)
    ensures r.Ok? <==> OrderItem(dishId, quantity, Money(amount, currency)).Valid()
    ensures r.Ok? ==> r.value == OrderItem(dishId, quantity, Money(amount, currency))
    ensures NewMoney(amount, currency).Err? ==> r == Err(NewMoney(amount, currency).error)
  {
    var price :- NewMoney(amount, currency);
    NewOrderItem(dishId, quantity, price)
  }
}
