/**
 * `CreateOrderUseCase` (order/application/usecases/command/create_order_use_case.py):
 * build the items, build the order, store it and return its id. The new id
 * (`uuid4()`) and the clock reading are inputs.
 */
module CreateOrder {
  import opened Wrappers
  import Text
  import opened Errors
  import opened Ids
  import opened MoneyValues
  import opened OrderItems
  import opened DeliveryAddresses
  import opened Orders
  import opened OrderMapping
  import opened OrderRepositories

  datatype OrderItemDto = OrderItemDto(dishId: Uuid, quantity: int, price: real, currency: string)

  datatype CreateOrderCommand = CreateOrderCommand(
    userId: Option<Uuid>,
    phoneNumber: string,
    items: seq<OrderItemDto>,
    deliveryType: DeliveryType,
    deliveryAddress: Option<string>,
    restaurantId: Uuid)

  /** The comprehension building one `OrderItem` per command item; the first invalid item raises. */
  function BuildItems(dtos: seq<OrderItemDto>): (r: Result<seq<OrderItem>>)
    ensures r.Ok? <==> forall i :: 0 <= i < |dtos| ==>
              OrderItem(dtos[i].dishId, dtos[i].quantity, Money(dtos[i].price, dtos[i].currency)).Valid()
    ensures r.Ok? ==> |r.value| == |dtos|
    ensures r.Ok? ==> forall i :: 0 <= i < |dtos| ==>
              r.value[i] == OrderItem(dtos[i].dishId, dtos[i].quantity, Money(dtos[i].price, dtos[i].currency))
    ensures r.Err? ==> r.error.cls == InvariantViolationError
  {
    if dtos == [] then Ok([])
    else
      var first :- ItemFromFields(dtos[0].dishId, dtos[0].quantity, dtos[0].price, dtos[0].currency);
      var rest :- BuildItems(dtos[1..]);
      Ok([first] + rest)
  }

  /** The order `execute` builds before storing it. */
  function BuildOrder(cmd: CreateOrderCommand, orderId: Uuid, now: Timestamp): (r: Result<OrderData>)
    ensures r.Ok? ==> r.value.Valid()
  {
    var items :- BuildItems(cmd.items);
    var address :- AddressIfGiven(cmd.deliveryAddress);
    CreateOrder(orderId, cmd.userId, PhoneNumber(cmd.phoneNumber), items, cmd.deliveryType, address,
                cmd.restaurantId, now)
  }

  /** `execute`: on success the order is stored once under its new id, which is returned; on failure nothing is stored. */
  method Execute(repository: OrderRepository, cmd: CreateOrderCommand, orderId: Uuid, now: Timestamp)
    returns (r: Result<Uuid>)
    requires repository.Valid()
    modifies repository
    ensures repository.Valid()
    ensures r.Ok? <==> BuildOrder(cmd, orderId, now).Ok?
    ensures r.Ok? ==> && r.value == orderId
                      && repository.rows == old(repository.rows)[orderId := ToPersistence(BuildOrder(cmd, orderId, now).value)]
    ensures r.Err? ==> r.error == BuildOrder(cmd, orderId, now).error && repository.rows == old(repository.rows)
  {
    var items :- BuildItems(cmd.items);
    var address :- AddressIfGiven(cmd.deliveryAddress);
    var order :- Order.New(OrderData(orderId, cmd.userId, PhoneNumber(cmd.phoneNumber), items, Created,
                                     cmd.deliveryType, address, cmd.restaurantId, now));
    repository.Add(order);
    return Ok(order.orderId);
  }

  /**
   * A successful create yields a `CREATED` order stamped with the clock reading,
   * with the command's fields, its address as `AddressIfGiven` reads it included.
   */
  lemma {:induction false} BuiltOrderFields(cmd: CreateOrderCommand, orderId: Uuid, now: Timestamp)
    requires BuildOrder(cmd, orderId, now).Ok?
    ensures var o := BuildOrder(cmd, orderId, now).value;
            && o.status == Created && o.createdAt == now && o.orderId == orderId
            && o.userId == cmd.userId && o.phoneNumber == PhoneNumber(cmd.phoneNumber)
            && o.deliveryType == cmd.deliveryType && o.restaurantId == cmd.restaurantId
            && AddressIfGiven(cmd.deliveryAddress).Ok?
            && o.deliveryAddress == AddressIfGiven(cmd.deliveryAddress).value
            && |o.items| == |cmd.items|
            && (forall i :: 0 <= i < |cmd.items| ==>
                  && o.items[i].dishId == cmd.items[i].dishId && o.items[i].quantity == cmd.items[i].quantity
                  && o.items[i].price == Money(cmd.items[i].price, cmd.items[i].currency))
  {
  }

  /** Any invalid item makes the whole command fail, whatever else it holds. */
  lemma {:induction false} InvalidItemFails(cmd: CreateOrderCommand, orderId: Uuid, now: Timestamp, i: nat)
    requires i < |cmd.items|
    requires cmd.items[i].quantity < 1 || cmd.items[i].price < 0.0 || Text.IsBlank(cmd.items[i].currency)
    ensures BuildOrder(cmd, orderId, now).Err?
    ensures BuildOrder(cmd, orderId, now).error.cls == InvariantViolationError
  {
    assert !OrderItem(cmd.items[i].dishId, cmd.items[i].quantity,
                      Money(cmd.items[i].price, cmd.items[i].currency)).Valid();
  }

  /** An empty-string address counts as no address: a delivery command with one fails for the missing address. */
  lemma {:induction false} EmptyAddressIsMissing(cmd: CreateOrderCommand, orderId: Uuid, now: Timestamp)
    requires BuildItems(cmd.items).Ok? && cmd.items != []
    requires cmd.deliveryType == Delivery && cmd.deliveryAddress == Some("")
    ensures BuildOrder(cmd, orderId, now) == Err(Raise(InvariantViolationError, MissingAddressMessage))
  {
  }

  /** A white-space address reaches `DeliveryAddress` and raises there, for pickup and delivery alike. */
  lemma {:induction false} BlankAddressRaises(cmd: CreateOrderCommand, orderId: Uuid, now: Timestamp)
    requires BuildItems(cmd.items).Ok?
    requires cmd.deliveryAddress.Some? && cmd.deliveryAddress.value != "" && Text.IsBlank(cmd.deliveryAddress.value)
    ensures BuildOrder(cmd, orderId, now) == Err(Raise(InvariantViolationError, "Address is required"))
  {
  }

  /** A pickup command keeps the address it carries; the use case does not clear it. */
  lemma {:induction false} PickupKeepsAddress(cmd: CreateOrderCommand, orderId: Uuid, now: Timestamp)
    requires BuildItems(cmd.items).Ok? && cmd.items != []
    requires cmd.deliveryType == Pickup
    requires cmd.deliveryAddress.Some? && !Text.IsBlank(cmd.deliveryAddress.value)
    ensures BuildOrder(cmd, orderId, now).Ok?
    ensures BuildOrder(cmd, orderId, now).value.deliveryAddress == Some(DeliveryAddress(cmd.deliveryAddress.value))
  {
    Text.EmptyIsBlank();
  }

  /** A pickup command with valid items succeeds whether or not it carries an address. */
  lemma {:induction false} PickupNeedsNoAddress(cmd: CreateOrderCommand, orderId: Uuid, now: Timestamp)
    requires BuildItems(cmd.items).Ok? && cmd.items != []
    requires cmd.deliveryType == Pickup && (cmd.deliveryAddress.None? || cmd.deliveryAddress == Some(""))
    ensures BuildOrder(cmd, orderId, now).Ok?
    ensures BuildOrder(cmd, orderId, now).value.deliveryAddress.None?
  {
  }
}
