/** The orders table of the SQLite database as the bot and the order routes
    use it: a map from row id to the row `findById` returns (the order
    columns joined with the customer's name and Telegram id). */
module Store {
  import opened Common
  import opened Telegram

  /** One row of `findById`. `items` is `None` when the stored JSON text
      does not parse; absent name columns are empty. */
  datatype OrderRow = OrderRow(
    id: int,
    orderNumber: string,
    items: Option<seq<Item>>,
    totalAmount: int,
    deliveryAddress: string,
    phone: string,
    paymentMethod: string,
    status: string,
    firstName: string,
    lastName: string,
    telegramId: string)

  /** The customer columns the join contributes. */
  datatype Customer = Customer(firstName: string, lastName: string, telegramId: string)

  /** `UPDATE orders SET status = ? WHERE id = ?`: a missing id matches no
      row and changes nothing. */
  function WithStatus(orders: map<int, OrderRow>, id: int, status: string): (r: map<int, OrderRow>)
    ensures r.Keys == orders.Keys
    ensures forall k | k in orders && k != id :: r[k] == orders[k]
    ensures id in orders ==> r[id] == orders[id].(status := status)
  {
    if id in orders then orders[id := orders[id].(status := status)] else orders
  }

  /** `findById`: the row, or nothing. */
  function Lookup(orders: map<int, OrderRow>, id: int): (r: Option<OrderRow>)
    ensures r.Some? <==> id in orders
    ensures r.Some? ==> r.value == orders[id]
  {
    if id in orders then Some(orders[id]) else None
  }

  /** Writing a status and reading the row back yields that status, and the
      other rows are as they were. */
  lemma WriteThenRead(orders: map<int, OrderRow>, id: int, status: string)
    ensures var r := Lookup(WithStatus(orders, id, status), id);
      && (r.Some? <==> id in orders)
      && (r.Some? ==> r.value.status == status && r.value.(status := orders[id].status) == orders[id])
  {
  }

  predicate OrderNumberUsed(orders: map<int, OrderRow>, orderNumber: string) {
    exists k | k in orders :: orders[k].orderNumber == orderNumber
  }

  class OrderStore {
    var orders: map<int, OrderRow>
    var nextId: int

    /** Every row sits under its own id, below the next AUTOINCREMENT value. */
    predicate Valid()
      reads this
    {
      && nextId >= 1
      && (forall k | k in orders :: 1 <= k < nextId && orders[k].id == k)
    }

    constructor ()
      ensures orders == map[] && nextId == 1
      ensures Valid()
    {
      orders := map[];
      nextId := 1;
    }

    method UpdateStatus(status: string, id: int)
      requires Valid()
      modifies this
      ensures orders == WithStatus(old(orders), id, status)
      ensures nextId == old(nextId)
      ensures Valid()
    {
      if id in orders {
        orders := orders[id := orders[id].(status := status)];
      }
    }

    method FindById(id: int) returns (r: Option<OrderRow>)
      ensures r == Lookup(orders, id)
    {
      if id in orders {
        r := Some(orders[id]);
      } else {
        r := None;
      }
    }

    /** `INSERT INTO orders …`: a fresh row under the next id, or a failure
        when the order number is already taken (the UNIQUE constraint). */
    method Create(orderNumber: string, items: seq<Item>, totalAmount: int, deliveryAddress: string,
                  phone: string, paymentMethod: string, status: string, customer: Customer)
      returns (id: Option<int>)
      requires Valid()
      modifies this
      ensures Valid()
      ensures OrderNumberUsed(old(orders), orderNumber) ==> id.None? && orders == old(orders) && nextId == old(nextId)
      ensures !OrderNumberUsed(old(orders), orderNumber) ==>
        && id == Some(old(nextId))
        && id.value !in old(orders)
        && nextId == old(nextId) + 1
        && orders == old(orders)[id.value := OrderRow(id.value, orderNumber, Some(items), totalAmount,
                                                       deliveryAddress, phone, paymentMethod, status,
                                                       customer.firstName, customer.lastName, customer.telegramId)]
    {
      if OrderNumberUsed(orders, orderNumber) {
        return None;
      }
      var row := OrderRow(nextId, orderNumber, Some(items), totalAmount, deliveryAddress, phone, paymentMethod,
                          status, customer.firstName, customer.lastName, customer.telegramId);
      orders := orders[nextId := row];
      id := Some(nextId);
      nextId := nextId + 1;
    }
  }
}
