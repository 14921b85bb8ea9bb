/** The order service: `createOrder`, a two-step write to the `orders` and
    `order_items` tables with no transaction around it, and the result shape
    of `fetchOrderDetails`. Each remote call is a step whose outcome (the
    server answering with data or with an error) is a parameter; the tables
    are the state those steps change. */
module Orders {
  import opened Seqs

  datatype User = User(id: string)

  /** A remote call either answers or reports an error. */
  datatype Outcome = Answers | Errs

  /** One item of the order the checkout page submits. */
  datatype OrderItem = OrderItem(productId: string, quantity: int, size: string, price: int)

  datatype OrderInput = OrderInput(totalAmount: int, shippingAddress: string, paymentMethod: string,
                                   items: seq<OrderItem>)

  datatype OrderRow = OrderRow(id: string, userId: string, totalAmount: int, shippingAddress: string,
                               paymentMethod: string, status: string)

  datatype OrderItemRow = OrderItemRow(orderId: string, productId: string, quantity: int, size: string,
                                       price: int)

  /** What `createOrder` ends in: the created row, or the error it throws. */
  datatype CreateResult = Created(order: OrderRow) | NotSignedIn | OrderInsertFailed | ItemsInsertFailed

  /** The object `fetchOrderDetails` returns: the order's fields and its items. */
  datatype OrderDetails = OrderDetails(order: OrderRow, items: seq<OrderItemRow>)

  const PendingStatus: string := "pending"

  /** The row `createOrder` asks the server to insert; the server chooses `id`. */
  function PendingOrder(id: string, user: User, input: OrderInput): (row: OrderRow)
    ensures row.id == id && row.userId == user.id && row.status == PendingStatus
    ensures row.totalAmount == input.totalAmount && row.shippingAddress == input.shippingAddress
    ensures row.paymentMethod == input.paymentMethod
  {
    OrderRow(id, user.id, input.totalAmount, input.shippingAddress, input.paymentMethod, PendingStatus)
  }

  /** `orderData.items.map(item => ({order_id: order.id, ...item}))`. */
  function OrderItemRows(orderId: string, items: seq<OrderItem>): (rows: seq<OrderItemRow>)
    ensures |rows| == |items|
    ensures forall i :: 0 <= i < |items| ==>
              rows[i] == OrderItemRow(orderId, items[i].productId, items[i].quantity, items[i].size, items[i].price)
  {
    seq(|items|, i requires 0 <= i < |items| =>
      OrderItemRow(orderId, items[i].productId, items[i].quantity, items[i].size, items[i].price))
  }

  /** Dropping the order id from each row gives back the submitted items. */
  function RowItem(row: OrderItemRow): OrderItem
  {
    OrderItem(row.productId, row.quantity, row.size, row.price)
  }

  lemma OrderItemRowsRoundTrip(orderId: string, items: seq<OrderItem>)
    ensures forall i :: 0 <= i < |items| ==> RowItem(OrderItemRows(orderId, items)[i]) == items[i]
    ensures forall r :: r in OrderItemRows(orderId, items) ==> r.orderId == orderId
  {
  }

  function OrderIds(orders: seq<OrderRow>): set<string>
  {
    set o | o in orders :: o.id
  }

  /** `.select(...).eq("id", orderId)`: the rows with that id. */
  function OrdersWithId(orders: seq<OrderRow>, orderId: string): (r: seq<OrderRow>)
    ensures forall o :: o in r <==> o in orders && o.id == orderId
  {
    Filter(orders, (o: OrderRow) => o.id == orderId)
  }

  /** `.select(...).eq("order_id", orderId)`: the item rows of the order. */
  function ItemsOf(orderItems: seq<OrderItemRow>, orderId: string): (r: seq<OrderItemRow>)
    ensures forall x :: x in r <==> x in orderItems && x.orderId == orderId
    ensures forall x :: multiset(r)[x] == if x.orderId == orderId then multiset(orderItems)[x] else 0
    ensures IsSubsequence(r, orderItems)
  {
    Filter(orderItems, (x: OrderItemRow) => x.orderId == orderId)
  }

  lemma ItemsOfAppend(a: seq<OrderItemRow>, b: seq<OrderItemRow>, orderId: string)
    ensures ItemsOf(a + b, orderId) == ItemsOf(a, orderId) + ItemsOf(b, orderId)
  {
    FilterConcat(a, b, (x: OrderItemRow) => x.orderId == orderId);
  }

  lemma {:induction false} FilterConcat<T(!new)>(a: seq<T>, b: seq<T>, keep: T -> bool)
    ensures Filter(a + b, keep) == Filter(a, keep) + Filter(b, keep)
    decreases |a|
  {
    if a == [] {
      assert a + b == b;
    } else {
      assert (a + b)[1..] == a[1..] + b;
      FilterConcat(a[1..], b, keep);
    }
  }

  /** `fetchOrderDetails`: `.single()` fails unless exactly one order has the
      id, and an error from either query is thrown. */
  function OrderDetailsIn(orders: seq<OrderRow>, orderItems: seq<OrderItemRow>, orderId: string,
                          orderQuery: Outcome, itemsQuery: Outcome): (r: Option<OrderDetails>)
    ensures r.Some? <==> orderQuery == Answers && itemsQuery == Answers && |OrdersWithId(orders, orderId)| == 1
    ensures r.Some? ==> r.value.order in orders && r.value.order.id == orderId
    ensures r.Some? ==> r.value.items == ItemsOf(orderItems, orderId)
  {
    var found := OrdersWithId(orders, orderId);
    if orderQuery == Answers && itemsQuery == Answers && |found| == 1 then
      assert found[0] in found;
      Some(OrderDetails(found[0], ItemsOf(orderItems, orderId)))
    else None
  }

  /** The two tables. */
  class Backend {
    var orders: seq<OrderRow>
    var orderItems: seq<OrderItemRow>

    /** Order ids are a primary key and every item row refers to an order. */
    ghost predicate Valid()
      reads this
    {
      DistinctIds(orders)
      && (forall x :: x in orderItems ==> x.orderId in OrderIds(orders))
    }

    constructor Empty()
      ensures orders == [] && orderItems == []
      ensures Valid()
    {
      orders := [];
      orderItems := [];
    }

    /** `from("orders").insert(row).select().single()`. A row whose id is
        taken violates the primary key and is refused. */
    method InsertOrder(row: OrderRow, outcome: Outcome) returns (ok: bool)
      modifies this
      ensures ok <==> outcome == Answers && row.id !in OrderIds(old(orders))
      ensures ok ==> orders == old(orders) + [row]
      ensures !ok ==> orders == old(orders)
      ensures orderItems == old(orderItems)
      ensures old(Valid()) ==> Valid()
    {
      ok := outcome == Answers && row.id !in OrderIds(orders);
      if ok {
        orders := orders + [row];
        assert OrderIds(orders) == OrderIds(old(orders)) + {row.id};
      }
    }

    /** `from("order_items").insert(rows)`: one statement, so either every
        row goes in or none does; a row naming no order breaks the foreign key. */
    method InsertOrderItems(rows: seq<OrderItemRow>, outcome: Outcome) returns (ok: bool)
      modifies this
      ensures ok <==> outcome == Answers && forall x :: x in rows ==> x.orderId in OrderIds(old(orders))
      ensures ok ==> orderItems == old(orderItems) + rows
      ensures !ok ==> orderItems == old(orderItems)
      ensures orders == old(orders)
      ensures old(Valid()) ==> Valid()
    {
      ok := outcome == Answers && forall x :: x in rows ==> x.orderId in OrderIds(orders);
      if ok {
        orderItems := orderItems + rows;
      }
    }
  }

  lemma OrdersWithIdConcat(a: seq<OrderRow>, b: seq<OrderRow>, orderId: string)
    ensures OrdersWithId(a + b, orderId) == OrdersWithId(a, orderId) + OrdersWithId(b, orderId)
  {
    FilterConcat(a, b, (o: OrderRow) => o.id == orderId);
  }

  lemma AbsentIdFindsNothing(orders: seq<OrderRow>, orderId: string)
    requires orderId !in OrderIds(orders)
    ensures OrdersWithId(orders, orderId) == []
  {
  }

  /** With distinct ids, a present id picks out exactly one row. */
  lemma {:induction false} SingleOrderWithId(orders: seq<OrderRow>, orderId: string)
    requires DistinctIds(orders)
    requires orderId in OrderIds(orders)
    ensures |OrdersWithId(orders, orderId)| == 1
    decreases |orders|
  {
    var rest := orders[1..];
    assert orders == [orders[0]] + rest;
    OrdersWithIdConcat([orders[0]], rest, orderId);
    DistinctTail(orders);
    if orders[0].id == orderId {
      HeadIdNotInTail(orders);
      AbsentIdFindsNothing(rest, orderId);
      assert OrdersWithId([orders[0]], orderId) == [orders[0]];
    } else {
      assert orderId in OrderIds(rest) by {
        var o :| o in orders && o.id == orderId;
        assert o != orders[0];
      }
      SingleOrderWithId(rest, orderId);
      AbsentIdFindsNothing([orders[0]], orderId);
    }
  }

  ghost predicate DistinctIds(orders: seq<OrderRow>)
  {
    forall i, j :: 0 <= i < j < |orders| ==> orders[i].id != orders[j].id
  }

  lemma DistinctTail(orders: seq<OrderRow>)
    requires orders != [] && DistinctIds(orders)
    ensures DistinctIds(orders[1..])
  {
    var rest := orders[1..];
    forall i, j | 0 <= i < j < |rest| ensures rest[i].id != rest[j].id {
      assert rest[i] == orders[i + 1] && rest[j] == orders[j + 1];
    }
  }

  lemma HeadIdNotInTail(orders: seq<OrderRow>)
    requires orders != [] && DistinctIds(orders)
    ensures orders[0].id !in OrderIds(orders[1..])
  {
  }

  /** With distinct ids, every stored order can be fetched once both queries
      answer. */
  lemma StoredOrderIsFound(orders: seq<OrderRow>, orderItems: seq<OrderItemRow>, orderId: string)
    requires DistinctIds(orders)
    requires orderId in OrderIds(orders)
    ensures OrderDetailsIn(orders, orderItems, orderId, Answers, Answers).Some?
  {
    SingleOrderWithId(orders, orderId);
  }

  /** `createOrder(input)` for the signed-in `user` (`None` when
      `auth.getUser` finds none). The server picks `newId` for the order row.
      Nothing is written without a user; a failed order insert stops before
      the items; a failed items insert leaves the order row behind. */
  method CreateOrder(backend: Backend, user: Option<User>, input: OrderInput, newId: string,
                     orderInsert: Outcome, itemsInsert: Outcome) returns (r: CreateResult)
    modifies backend
    ensures r == NotSignedIn <==> user.None?
    ensures r == NotSignedIn || r == OrderInsertFailed ==>
              backend.orders == old(backend.orders) && backend.orderItems == old(backend.orderItems)
    ensures user.Some? ==> (r == OrderInsertFailed <==> orderInsert == Errs || newId in OrderIds(old(backend.orders)))
    ensures r == ItemsInsertFailed ==>
              (backend.orders == old(backend.orders) + [PendingOrder(newId, user.value, input)]
               && backend.orderItems == old(backend.orderItems))
    ensures r.Created? ==> (r.order == PendingOrder(newId, user.value, input)
                            && backend.orders == old(backend.orders) + [r.order]
                            && backend.orderItems == old(backend.orderItems) + OrderItemRows(newId, input.items))
    ensures user.Some? && orderInsert == Answers && newId !in OrderIds(old(backend.orders)) ==>
              (r.Created? <==> itemsInsert == Answers)
    ensures user.Some? && orderInsert == Answers && newId !in OrderIds(old(backend.orders)) && itemsInsert == Errs ==>
              r == ItemsInsertFailed
    ensures old(backend.Valid()) ==> backend.Valid()
  {
    if user.None? {
      return NotSignedIn;
    }
    var row := PendingOrder(newId, user.value, input);
    var orderOk := backend.InsertOrder(row, orderInsert);
    if !orderOk {
      return OrderInsertFailed;
    }
    var rows := OrderItemRows(newId, input.items);
    assert newId in OrderIds(backend.orders) by {
      assert backend.orders[|backend.orders| - 1] == row;
    }
    var itemsOk := backend.InsertOrderItems(rows, itemsInsert);
    if !itemsOk {
      return ItemsInsertFailed;
    }
    return Created(row);
  }

  /** A fresh id finds only the row just appended with it. */
  lemma FreshIdFindsAppended(orders: seq<OrderRow>, row: OrderRow)
    requires row.id !in OrderIds(orders)
    ensures OrdersWithId(orders + [row], row.id) == [row]
  {
    OrdersWithIdConcat(orders, [row], row.id);
    AbsentIdFindsNothing(orders, row.id);
    assert [row][1..] == [];
  }

  lemma NoItemsForNewOrder(orderItems: seq<OrderItemRow>, orders: seq<OrderRow>, newId: string)
    requires forall x :: x in orderItems ==> x.orderId in OrderIds(orders)
    requires newId !in OrderIds(orders)
    ensures ItemsOf(orderItems, newId) == []
  {
  }

  /** Reading back an order that was just created gives its row and exactly
      the submitted items, in order. */
  lemma CreatedOrderReadsBack(orders: seq<OrderRow>, orderItems: seq<OrderItemRow>, user: User,
                              input: OrderInput, newId: string)
    requires forall x :: x in orderItems ==> x.orderId in OrderIds(orders)
    requires newId !in OrderIds(orders)
    ensures OrderDetailsIn(orders + [PendingOrder(newId, user, input)],
                           orderItems + OrderItemRows(newId, input.items), newId, Answers, Answers)
            == Some(OrderDetails(PendingOrder(newId, user, input), OrderItemRows(newId, input.items)))
  {
    var row, rows := PendingOrder(newId, user, input), OrderItemRows(newId, input.items);
    FreshIdFindsAppended(orders, row);
    assert ItemsOf(orderItems + rows, newId) == rows by {
      NoItemsForNewOrder(orderItems, orders, newId);
      ItemsOfAppend(orderItems, rows, newId);
      FilterAll(rows, (x: OrderItemRow) => x.orderId == newId);
    }
  }

  /** When the items insert fails, the order is there and reads back with no
      items at all. */
  lemma OrphanedOrderHasNoItems(orders: seq<OrderRow>, orderItems: seq<OrderItemRow>, user: User,
                                input: OrderInput, newId: string)
    requires forall x :: x in orderItems ==> x.orderId in OrderIds(orders)
    requires newId !in OrderIds(orders)
    ensures OrderDetailsIn(orders + [PendingOrder(newId, user, input)], orderItems, newId, Answers, Answers)
            == Some(OrderDetails(PendingOrder(newId, user, input), []))
  {
    FreshIdFindsAppended(orders, PendingOrder(newId, user, input));
    NoItemsForNewOrder(orderItems, orders, newId);
  }
}
