/**
 * The order store (order/infrastructure/database/postgres/sqlalchemy/order_repository.py),
 * seen as a map from order id to stored row; loading goes through `OrderMapper`.
 */
module OrderRepositories {
  import opened Errors
  import opened Ids
  import opened Orders
  import opened OrderMapping

  function NotFoundMessage(orderId: Uuid): string
  {
    "Order with id " + orderId + " not found"
  }

  class OrderRepository {
    /** The stored `orders` rows with their items, by order id. */
    var rows: map<Uuid, OrderRow>

    /** Every row is stored under its own primary key. */
    ghost predicate Valid()
      reads this
    {
      forall id :: id in rows ==> rows[id].orderId == id
    }

    /** A store whose rows each sit under their own primary key. */
    constructor (rows: map<Uuid, OrderRow>)
      requires forall id :: id in rows ==> rows[id].orderId == id
      ensures Valid()
      ensures this.rows == rows
    {
      this.rows := rows;
    }

    /** `get_by_id`: a missing id raises `ValueError`; a stored row is mapped back to a fresh order. */
    method GetById(orderId: Uuid) returns (r: Result<Order>)
      ensures orderId !in rows ==> r == Err(Raise(ValueError, NotFoundMessage(orderId)))
      ensures orderId in rows ==> (r.Ok? <==> ToDomain(rows[orderId]).Ok?)
      ensures orderId in rows && r.Ok? ==> fresh(r.value) && r.value.Data() == ToDomain(rows[orderId]).value
      ensures orderId in rows && r.Err? ==> r.error == ToDomain(rows[orderId]).error
    {
      if orderId !in rows {
        return Err(Raise(ValueError, NotFoundMessage(orderId)));
      }
      var loaded := ToDomain(rows[orderId]);
      if loaded.Err? {
        return Err(loaded.error);
      }
      var order := new Order.FromData(loaded.value);
      return Ok(order);
    }

    /** `add`: stores the order's rows under its id. */
    method Add(order: Order)
      requires Valid()
      modifies this
      ensures Valid()
      ensures rows == old(rows)[order.orderId := ToPersistence(order.Data())]
    {
      rows := rows[order.orderId := ToPersistence(order.Data())];
    }

    /** `update`: replaces the order's rows, items included, by those of its current state. */
    method Update(order: Order)
      requires Valid()
      modifies this
      ensures Valid()
      ensures rows == old(rows)[order.orderId := ToPersistence(order.Data())]
    {
      rows := rows[order.orderId := ToPersistence(order.Data())];
    }
  }
}
