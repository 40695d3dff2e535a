/**
 * The `Order` aggregate (order/domain/entities/order.py): its invariants, its
 * fixed status-transition table and the in-place changes to its item list.
 */
module Orders {
  import opened Wrappers
  import opened Errors
  import opened Ids
  import opened OrderItems
  import opened DeliveryAddresses

  datatype OrderStatus = Created | Preparing | Ready | Delivered | PickedUp

  datatype DeliveryType = Delivery | Pickup

  /** A contact number, wrapped as given. */
  datatype PhoneNumber = PhoneNumber(value: string)

  /** `str(status)` of the `OrderStatus` enum member, as it appears in error messages. */
  function StatusText(s: OrderStatus): string
  {
    match s
    case Created => "OrderStatus.CREATED"
    case Preparing => "OrderStatus.PREPARING"
    case Ready => "OrderStatus.READY"
    case Delivered => "OrderStatus.DELIVERED"
    case PickedUp => "OrderStatus.PICKED_UP"
  }

  /** The field values of an `Order` at one moment. */
  datatype OrderData = OrderData(
    orderId: Uuid,
    userId: Option<Uuid>,
    phoneNumber: PhoneNumber,
    items: seq<OrderItem>,
    status: OrderStatus,
    deliveryType: DeliveryType,
    deliveryAddress: Option<DeliveryAddress>,
    restaurantId: Uuid,
    createdAt: Timestamp)
  {
    /** The aggregate's invariants, together with those of the value objects it holds. */
    predicate Valid()
    {
      && items != []
      && (deliveryType == Delivery ==> deliveryAddress.Some?)
      && (forall i :: 0 <= i < |items| ==> items[i].Valid())
      && (deliveryAddress.Some? ==> deliveryAddress.value.Valid())
    }
  }

  const EmptyOrderMessage: string := "Order must contain at least one item"
  const MissingAddressMessage: string := "Delivery address is required for delivery orders"

  /** `Order.__post_init__`: the item check runs before the address check. */
  function CheckInvariants(items: seq<OrderItem>, deliveryType: DeliveryType,
                           deliveryAddress: Option<DeliveryAddress>): (r: Outcome)
    ensures r.Pass? <==> items != [] && (deliveryType == Delivery ==> deliveryAddress.Some?)
    ensures items == [] ==> r == Fail(Raise(InvariantViolationError, EmptyOrderMessage))
    ensures items != [] && deliveryType == Delivery && deliveryAddress.None? ==>
              r == Fail(Raise(InvariantViolationError, MissingAddressMessage))
  {
    if items == [] then Fail(Raise(InvariantViolationError, EmptyOrderMessage))
    else if deliveryType == Delivery && deliveryAddress.None? then
      Fail(Raise(InvariantViolationError, MissingAddressMessage))
    else Pass
  }

  /** The dataclass constructor `Order(...)`: the fields as given, once the invariants hold. */
  function NewOrder(d: OrderData): (r: Result<OrderData>)
    ensures r.Ok? <==> CheckInvariants(d.items, d.deliveryType, d.deliveryAddress).Pass?
    ensures r.Ok? ==> r.value == d
    ensures r.Err? ==> r.error == CheckInvariants(d.items, d.deliveryType, d.deliveryAddress).error
  {
    match CheckInvariants(d.items, d.deliveryType, d.deliveryAddress)
    case Pass => Ok(d)
    case Fail(e) => Err(e)
  }

  /** `Order.create`: status `CREATED`, every other field copied from the arguments. */
  function CreateOrder(orderId: Uuid, userId: Option<Uuid>, phoneNumber: PhoneNumber,
                       items: seq<OrderItem>, deliveryType: DeliveryType,
                       deliveryAddress: Option<DeliveryAddress>, restaurantId: Uuid,
                       createdAt: Timestamp): (r: Result<OrderData>)
    ensures r.Ok? <==> items != [] && (deliveryType == Delivery ==> deliveryAddress.Some?)
    ensures r.Ok? ==> r.value.status == Created
    ensures r.Ok? ==> && r.value.orderId == orderId && r.value.userId == userId
                      && r.value.phoneNumber == phoneNumber && r.value.items == items
                      && r.value.deliveryType == deliveryType
                      && r.value.deliveryAddress == deliveryAddress
                      && r.value.restaurantId == restaurantId && r.value.createdAt == createdAt
    ensures r.Err? ==> r.error.cls == InvariantViolationError
  {
    NewOrder(OrderData(orderId, userId, phoneNumber, items, Created, deliveryType,
                       deliveryAddress, restaurantId, createdAt))
  }

  /** The `valid_transitions` table of `update_status`; statuses not in it map to `[]`. */
  function NextStatuses(s: OrderStatus): seq<OrderStatus>
  {
    match s
    case Created => [Preparing]
    case Preparing => [Ready]
    case Ready => [Delivered, PickedUp]
    case _ => []
  }

  predicate CanTransition(from: OrderStatus, to: OrderStatus)
  {
    to in NextStatuses(from)
  }

  /** Exactly four transitions are legal; no self-transition and nothing out of a terminal status. */
  lemma {:induction false} TransitionTable(from: OrderStatus, to: OrderStatus)
    ensures CanTransition(from, to) <==>
              || (from == Created && to == Preparing)
              || (from == Preparing && to == Ready)
              || (from == Ready && to == Delivered)
              || (from == Ready && to == PickedUp)
    ensures CanTransition(from, to) ==> from != to
    ensures from in {Delivered, PickedUp} ==> !CanTransition(from, to)
  {
  }

  /** `[item for item in items if item.dish_id != dish_id]` */
  function WithoutDish(items: seq<OrderItem>, dishId: Uuid): (r: seq<OrderItem>)
    ensures |r| <= |items|
    ensures forall i :: 0 <= i < |r| ==> r[i].dishId != dishId && r[i] in items
  {
    if items == [] then []
    else if items[0].dishId != dishId then [items[0]] + WithoutDish(items[1..], dishId)
    else WithoutDish(items[1..], dishId)
  }

  /** Number of lines for one dish. */
  function CountDish(items: seq<OrderItem>, dishId: Uuid): nat
  {
    if items == [] then 0
    else (if items[0].dishId == dishId then 1 else 0) + CountDish(items[1..], dishId)
  }

  /** Removal works line by line, so it keeps the remaining lines in their original order. */
  lemma {:induction false} WithoutDishAppend(a: seq<OrderItem>, b: seq<OrderItem>, dishId: Uuid)
    ensures WithoutDish(a + b, dishId) == WithoutDish(a, dishId) + WithoutDish(b, dishId)
  {
    if a != [] {
      assert (a + b)[1..] == a[1..] + b;
      WithoutDishAppend(a[1..], b, dishId);
    } else {
      assert a + b == b;
    }
  }

  /** Every line of the dish is removed and every other line is kept. */
  lemma {:induction false} WithoutDishCount(items: seq<OrderItem>, dishId: Uuid)
    ensures |WithoutDish(items, dishId)| + CountDish(items, dishId) == |items|
    ensures CountDish(WithoutDish(items, dishId), dishId) == 0
    ensures CountDish(items, dishId) == 0 ==> WithoutDish(items, dishId) == items
  {
    if items != [] {
      WithoutDishCount(items[1..], dishId);
      assert items == [items[0]] + items[1..];
    }
  }

  /** Removing a dish from a valid order leaves valid lines. */
  lemma {:induction false} WithoutDishKeepsValidLines(items: seq<OrderItem>, dishId: Uuid)
    requires forall i :: 0 <= i < |items| ==> items[i].Valid()
    ensures forall i :: 0 <= i < |WithoutDish(items, dishId)| ==> WithoutDish(items, dishId)[i].Valid()
  {
  }

  /** An order, whose item list and status change in place. */
  class Order {
    var orderId: Uuid
    var userId: Option<Uuid>
    var phoneNumber: PhoneNumber
    var items: seq<OrderItem>
    var status: OrderStatus
    var deliveryType: DeliveryType
    var deliveryAddress: Option<DeliveryAddress>
    var restaurantId: Uuid
    var createdAt: Timestamp

    /** The current field values. */
    function Data(): OrderData
      reads this
    {
      OrderData(orderId, userId, phoneNumber, items, status, deliveryType, deliveryAddress,
                restaurantId, createdAt)
    }

    /** Stores the fields; `New` is the checked way to build an order. */
    constructor FromData(d: OrderData)
      ensures Data() == d
    {
      orderId, userId, phoneNumber, items := d.orderId, d.userId, d.phoneNumber, d.items;
      status, deliveryType, deliveryAddress := d.status, d.deliveryType, d.deliveryAddress;
      restaurantId, createdAt := d.restaurantId, d.createdAt;
    }

    /** `Order(...)`: a fresh order holding `d`, or the invariant violation `__post_init__` raises. */
    static method New(d: OrderData) returns (r: Result<Order>)
      ensures r.Ok? <==> NewOrder(d).Ok?
      ensures r.Ok? ==> fresh(r.value) && r.value.Data() == d
      ensures r.Err? ==> r.error == NewOrder(d).error
    {
      var checked := NewOrder(d);
      if checked.Err? {
        return Err(checked.error);
      }
      var o := new Order.FromData(d);
      return Ok(o);
    }

    /** `add_item`: appends, with no de-duplication by dish. */
    method AddItem(item: OrderItem)
      modifies this
      ensures items == old(items) + [item]
      ensures Data() == old(Data()).(items := old(items) + [item])
      ensures old(Data().Valid()) && item.Valid() ==> Data().Valid()
    {
      items := items + [item];
    }

    /**
     * `remove_item`: drops every line of the dish. The list is replaced before
     * the emptiness check, so on failure the order is left with no items.
     */
    method RemoveItem(dishId: Uuid) returns (r: Outcome)
      modifies this
      ensures items == WithoutDish(old(items), dishId)
      ensures Data() == old(Data()).(items := WithoutDish(old(items), dishId))
      ensures r.Fail? <==> items == []
      ensures r.Fail? ==> r.error == Raise(InvariantViolationError, EmptyOrderMessage)
      ensures r.Pass? && old(Data().Valid()) ==> Data().Valid()
    {
      items := WithoutDish(items, dishId);
      if old(Data().Valid()) {
        WithoutDishKeepsValidLines(old(items), dishId);
      }
      if items == [] {
        return Fail(Raise(InvariantViolationError, EmptyOrderMessage));
      }
      return Pass;
    }

    /** `update_status`: a legal transition replaces the status; any other leaves the order as it was. */
    method UpdateStatus(newStatus: OrderStatus) returns (r: Outcome)
      modifies this
      ensures r.Pass? <==> CanTransition(old(status), newStatus)
      ensures r.Pass? ==> Data() == old(Data()).(status := newStatus)
      ensures r.Fail? ==> Data() == old(Data())
      ensures r.Fail? ==> r.error == Raise(InvariantViolationError,
                            "Invalid status transition from " + StatusText(old(status)) +
                            " to " + StatusText(newStatus))
      ensures old(Data().Valid()) ==> Data().Valid()
    {
      if newStatus !in NextStatuses(status) {
        return Fail(Raise(InvariantViolationError,
                    "Invalid status transition from " + StatusText(status) + " to " + StatusText(newStatus)));
      }
      status := newStatus;
      return Pass;
    }
  }
}
