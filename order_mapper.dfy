/**
 * `OrderMapper`: the translation between an `Order` and its stored rows
 * (order/infrastructure/database/postgres/sqlalchemy/mappers/order_mapper.py).
 */
module OrderMapping {
  import opened Wrappers
  import opened Errors
  import opened Ids
  import opened MoneyValues
  import opened OrderItems
  import opened DeliveryAddresses
  import opened Orders

  /** An `order_items` row. */
  datatype OrderItemRow = OrderItemRow(orderId: Uuid, dishId: Uuid, quantity: int, price: real, currency: string)

  /** An `orders` row with its item rows; a NULL column is `None`. */
  datatype OrderRow = OrderRow(
    orderId: Uuid,
    userId: Option<Uuid>,
    phoneNumber: string,
    status: OrderStatus,
    deliveryType: DeliveryType,
    deliveryAddress: Option<string>,
    restaurantId: Uuid,
    createdAt: Timestamp,
    items: seq<OrderItemRow>)

  /** The item a row describes. */
  function RowItem(row: OrderItemRow): OrderItem
  {
    OrderItem(row.dishId, row.quantity, Money(row.price, row.currency))
  }

  /** The item comprehension of `to_domain`: the first row that fails stops it. */
  function ItemsToDomain(rows: seq<OrderItemRow>): (r: Result<seq<OrderItem>>)
    ensures r.Ok? <==> forall i :: 0 <= i < |rows| ==> RowItem(rows[i]).Valid()
    ensures r.Ok? ==> |r.value| == |rows|
    ensures r.Ok? ==> forall i :: 0 <= i < |rows| ==> r.value[i] == RowItem(rows[i]) && r.value[i].Valid()
  {
    if rows == [] then Ok([])
    else
      var first := ItemFromFields(rows[0].dishId, rows[0].quantity, rows[0].price, rows[0].currency);
      if first.Err? then Err(first.error)
      else
        var rest := ItemsToDomain(rows[1..]);
        if rest.Err? then
          assert exists i :: 0 <= i < |rows[1..]| && !RowItem(rows[1..][i]).Valid();
          Err(rest.error)
        else
          Ok([first.value] + rest.value)
  }

  /** `OrderMapper.to_domain`: items first, then the address, then the aggregate's own invariants. */
  function ToDomain(row: OrderRow): (r: Result<OrderData>)
    ensures r.Ok? ==> r.value.Valid()
  {
    var items :- ItemsToDomain(row.items);
    var address :- AddressIfGiven(row.deliveryAddress);
    NewOrder(OrderData(row.orderId, row.userId, PhoneNumber(row.phoneNumber), items, row.status,
                       row.deliveryType, address, row.restaurantId, row.createdAt))
  }

  /** One item row per order line, each carrying the order's id. */
  function ItemsToPersistence(orderId: Uuid, items: seq<OrderItem>): (r: seq<OrderItemRow>)
    ensures |r| == |items|
    ensures forall i :: 0 <= i < |items| ==>
              r[i] == OrderItemRow(orderId, items[i].dishId, items[i].quantity,
                                   items[i].price.amount, items[i].price.currency)
  {
    if items == [] then []
    else [OrderItemRow(orderId, items[0].dishId, items[0].quantity, items[0].price.amount,
                       items[0].price.currency)] + ItemsToPersistence(orderId, items[1..])
  }

  /** `OrderMapper.to_persistence` */
  function ToPersistence(o: OrderData): (r: OrderRow)
  {
    OrderRow(o.orderId, o.userId, o.phoneNumber.value, o.status, o.deliveryType,
             if o.deliveryAddress.Some? then Some(o.deliveryAddress.value.value) else None,
             o.restaurantId, o.createdAt, ItemsToPersistence(o.orderId, o.items))
  }

  /** Row fields are copied from the order, lines are not merged, and `None` becomes NULL. */
  lemma {:induction false} ToPersistenceFields(o: OrderData)
    ensures var r := ToPersistence(o);
            && r.orderId == o.orderId && r.userId == o.userId && r.status == o.status
            && r.deliveryType == o.deliveryType && r.restaurantId == o.restaurantId
            && r.createdAt == o.createdAt && r.phoneNumber == o.phoneNumber.value
            && (o.deliveryAddress.None? <==> r.deliveryAddress.None?)
            && |r.items| == |o.items|
            && (forall i :: 0 <= i < |o.items| ==>
                  r.items[i].orderId == o.orderId && r.items[i].dishId == o.items[i].dishId)
  {
  }

  /** Rebuilding the lines of a valid order from their rows gives them back. */
  lemma {:induction false} ItemsRoundTrip(orderId: Uuid, items: seq<OrderItem>)
    requires forall i :: 0 <= i < |items| ==> items[i].Valid()
    ensures ItemsToDomain(ItemsToPersistence(orderId, items)) == Ok(items)
  {
    if items != [] {
      ItemsRoundTrip(orderId, items[1..]);
      var rows := ItemsToPersistence(orderId, items);
      assert rows[1..] == ItemsToPersistence(orderId, items[1..]);
      assert ItemFromFields(rows[0].dishId, rows[0].quantity, rows[0].price, rows[0].currency) == Ok(items[0]);
      assert items == [items[0]] + items[1..];
    }
  }

  /** Storing a valid order and loading it back gives the same order. */
  lemma {:induction false} DomainRowDomain(o: OrderData)
    requires o.Valid()
    ensures ToDomain(ToPersistence(o)) == Ok(o)
  {
    ItemsRoundTrip(o.orderId, o.items);
    if o.deliveryAddress.Some? {
      ValidAddressNonEmpty(o.deliveryAddress.value);
    }
  }

  /**
   * Loading a row and storing it back gives the same row, once the row is in the
   * form `to_persistence` writes: no empty-string address, and item rows that
   * carry the order's own id.
   */
  lemma {:induction false} RowDomainRow(row: OrderRow)
    requires ToDomain(row).Ok?
    requires row.deliveryAddress != Some("")
    requires forall i :: 0 <= i < |row.items| ==> row.items[i].orderId == row.orderId
    ensures ToPersistence(ToDomain(row).value) == row
  {
    var o := ToDomain(row).value;
    var rows := ToPersistence(o).items;
    assert |rows| == |row.items|;
    assert forall i :: 0 <= i < |rows| ==> rows[i] == row.items[i];
  }

  /**
   * An item-less row, or a delivery row without a (non-empty) address, cannot be
   * loaded; a white-space address column is refused by `DeliveryAddress` before
   * the aggregate's own checks run.
   */
  lemma {:induction false} InvalidRowsRefused(row: OrderRow)
    ensures row.items == [] && AddressIfGiven(row.deliveryAddress).Ok? ==>
              ToDomain(row) == Err(Raise(InvariantViolationError, EmptyOrderMessage))
    ensures ItemsToDomain(row.items).Ok? && AddressIfGiven(row.deliveryAddress).Err? ==>
              ToDomain(row) == Err(Raise(InvariantViolationError, "Address is required"))
    ensures ItemsToDomain(row.items).Ok? && row.items != [] && row.deliveryType == Delivery &&
            (row.deliveryAddress.None? || row.deliveryAddress == Some("")) ==>
              ToDomain(row) == Err(Raise(InvariantViolationError, MissingAddressMessage))
  {
  }
}
