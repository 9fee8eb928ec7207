/** The persisted records: orders, their executions, and risk limits,
    with the column defaults of the ORM mapping as constructor defaults. */
module Models {
  import opened Tables

  const StatusNew := "NEW"
  const DefaultTimeInForce := "GTC"

  /** An order row. `price` and `avgPx` are nullable columns. */
  datatype Order = Order(
    id: Id,
    clientId: string,
    symbol: string,
    side: string,
    orderType: string,
    qty: real,
    price: Option<real> := None,
    timeInForce: string := DefaultTimeInForce,
    status: string := StatusNew,
    cumQty: real := 0.0,
    avgPx: Option<real> := None,
    createdAt: Timestamp,
    updatedAt: Timestamp)

  /** A fill; `orderId` is a foreign key to the order that owns it. */
  datatype Execution = Execution(
    id: Id,
    orderId: Id,
    execQty: real,
    execPx: real,
    execTime: Timestamp)

  /** A risk-limit row; an absent `symbol` makes the row client-general. */
  datatype RiskLimit = RiskLimit(
    id: Id,
    clientId: string,
    symbol: Option<string> := None,
    maxNotional: real,
    maxOrderSize: real,
    tradingHours: string,
    blocked: bool := false)

  /** A fresh order as the ORM inserts it: the generated columns (id and the
      two timestamps) come from the caller's id and clock, every other column
      left out takes its default. */
  function NewOrder(id: Id, now: Timestamp, clientId: string, symbol: string,
                    side: string, orderType: string, qty: real,
                    price: Option<real> := None,
                    timeInForce: string := DefaultTimeInForce): (o: Order)
    ensures o.id == id && o.clientId == clientId && o.symbol == symbol
    ensures o.side == side && o.orderType == orderType && o.qty == qty
    ensures o.price == price && o.timeInForce == timeInForce
    ensures o.status == StatusNew && o.cumQty == 0.0 && o.avgPx.None?
    ensures o.createdAt == now && o.updatedAt == now
  {
    Order(id := id, clientId := clientId, symbol := symbol, side := side,
          orderType := orderType, qty := qty, price := price,
          timeInForce := timeInForce, createdAt := now, updatedAt := now)
  }

  /** An order created without a price or time in force is unpriced and GTC. */
  lemma NewOrderDefaults(id: Id, now: Timestamp, clientId: string, symbol: string,
                         side: string, orderType: string, qty: real)
    ensures NewOrder(id, now, clientId, symbol, side, orderType, qty).price.None?
    ensures NewOrder(id, now, clientId, symbol, side, orderType, qty).timeInForce == "GTC"
  {
  }

  /** A risk limit left without a symbol or blocked flag is client-general
      and not blocked. */
  lemma RiskLimitDefaults(id: Id, clientId: string, maxNotional: real,
                          maxOrderSize: real, tradingHours: string)
    ensures RiskLimit(id := id, clientId := clientId, maxNotional := maxNotional,
                      maxOrderSize := maxOrderSize, tradingHours := tradingHours).symbol.None?
    ensures !RiskLimit(id := id, clientId := clientId, maxNotional := maxNotional,
                       maxOrderSize := maxOrderSize, tradingHours := tradingHours).blocked
  {
  }

  /** The primary key of the order table. */
  ghost predicate UniqueIds(orders: seq<Order>) {
    forall i, j :: 0 <= i < j < |orders| ==> orders[i].id != orders[j].id
  }

  /** Lookup by primary key: the first order with this id. */
  function FindOrder(orders: seq<Order>, id: Id): (r: Option<Order>)
    ensures r.Some? ==> r.value in orders && r.value.id == id
    ensures r.None? <==> forall k :: 0 <= k < |orders| ==> orders[k].id != id
  {
    if orders == [] then None
    else if orders[0].id == id then Some(orders[0])
    else FindOrder(orders[1..], id)
  }

  /** With a primary key, the lookup returns the one order with that id. */
  lemma {:induction false} FindOrderUnique(orders: seq<Order>, k: nat)
    requires UniqueIds(orders) && k < |orders|
    ensures FindOrder(orders, orders[k].id) == Some(orders[k])
  {
    if k > 0 {
      assert orders[0].id != orders[k].id;
      FindOrderUnique(orders[1..], k - 1);
    }
  }

  /** Appending a row does not change the lookup of an id already present. */
  lemma {:induction false} FindOrderAppend(orders: seq<Order>, o: Order, id: Id)
    requires FindOrder(orders, id).Some?
    ensures FindOrder(orders + [o], id) == FindOrder(orders, id)
  {
    if orders[0].id != id {
      assert (orders + [o])[1..] == orders[1..] + [o];
      FindOrderAppend(orders[1..], o, id);
    }
  }

  /** Every execution belongs to an order of the table (the foreign key). */
  ghost predicate Owned(orders: seq<Order>, executions: seq<Execution>) {
    forall e :: e in executions ==> FindOrder(orders, e.orderId).Some?
  }

  /** Under the primary key, an owned execution has exactly one owner. */
  lemma ExactlyOneOwner(orders: seq<Order>, executions: seq<Execution>, e: Execution)
    requires UniqueIds(orders) && Owned(orders, executions) && e in executions
    ensures exists k :: 0 <= k < |orders| && orders[k].id == e.orderId
    ensures forall i, j ::
      0 <= i < |orders| && 0 <= j < |orders| && orders[i].id == e.orderId && orders[j].id == e.orderId ==> i == j
  {
    var o := FindOrder(orders, e.orderId).value;
    var k :| 0 <= k < |orders| && orders[k] == o;
  }

  /** The executions owned by one order, in table order. */
  function ExecutionsOf(executions: seq<Execution>, orderId: Id): (r: seq<Execution>)
    ensures forall e :: e in r <==> e in executions && e.orderId == orderId
  {
    if executions == [] then []
    else (if executions[0].orderId == orderId then [executions[0]] else [])
         + ExecutionsOf(executions[1..], orderId)
  }

  /** The tables after deleting an order. */
  datatype Store = Store(orders: seq<Order>, executions: seq<Execution>)

  function OrdersExcept(orders: seq<Order>, id: Id): (r: seq<Order>)
    ensures forall o :: o in r <==> o in orders && o.id != id
  {
    if orders == [] then []
    else (if orders[0].id != id then [orders[0]] else []) + OrdersExcept(orders[1..], id)
  }

  function ExecutionsExcept(executions: seq<Execution>, orderId: Id): (r: seq<Execution>)
    ensures forall e :: e in r <==> e in executions && e.orderId != orderId
  {
    if executions == [] then []
    else (if executions[0].orderId != orderId then [executions[0]] else [])
         + ExecutionsExcept(executions[1..], orderId)
  }

  /** Deleting an order cascades to the executions it owns
      (`cascade="all, delete-orphan"` and `ondelete="CASCADE"`). */
  function DeleteOrder(store: Store, id: Id): (r: Store)
    ensures forall o :: o in r.orders <==> o in store.orders && o.id != id
    ensures forall e :: e in r.executions <==> e in store.executions && e.orderId != id
  {
    Store(OrdersExcept(store.orders, id), ExecutionsExcept(store.executions, id))
  }

  /** The other orders' executions survive the delete unchanged and in order. */
  lemma {:induction false} ExecutionsExceptKeepsOthers(executions: seq<Execution>, id: Id, other: Id)
    requires other != id
    ensures ExecutionsOf(ExecutionsExcept(executions, id), other) == ExecutionsOf(executions, other)
  {
    if executions != [] {
      var head := if executions[0].orderId != id then [executions[0]] else [];
      ExecutionsExceptKeepsOthers(executions[1..], id, other);
      ExecutionsOfAppend(head, ExecutionsExcept(executions[1..], id), other);
    }
  }

  lemma {:induction false} ExecutionsOfAppend(a: seq<Execution>, b: seq<Execution>, orderId: Id)
    ensures ExecutionsOf(a + b, orderId) == ExecutionsOf(a, orderId) + ExecutionsOf(b, orderId)
  {
    if a == [] {
      assert a + b == b;
    } else {
      assert (a + b)[1..] == a[1..] + b;
      ExecutionsOfAppend(a[1..], b, orderId);
    }
  }

  /** Deleting an order leaves none of its executions and keeps every other
      order's executions exactly. */
  lemma DeleteOrderCascades(store: Store, id: Id, other: Id)
    requires other != id
    ensures ExecutionsOf(DeleteOrder(store, id).executions, id) == []
    ensures ExecutionsOf(DeleteOrder(store, id).executions, other) == ExecutionsOf(store.executions, other)
  {
    ExecutionsExceptKeepsOthers(store.executions, id, other);
    ExecutionsExceptDropsOwn(store.executions, id);
  }

  lemma {:induction false} ExecutionsExceptDropsOwn(executions: seq<Execution>, id: Id)
    ensures ExecutionsOf(ExecutionsExcept(executions, id), id) == []
  {
    if executions != [] {
      var head := if executions[0].orderId != id then [executions[0]] else [];
      ExecutionsExceptDropsOwn(executions[1..], id);
      ExecutionsOfAppend(head, ExecutionsExcept(executions[1..], id), id);
    }
  }

  lemma {:induction false} FindOrderExcept(orders: seq<Order>, id: Id, other: Id)
    requires other != id
    ensures FindOrder(OrdersExcept(orders, id), other) == FindOrder(orders, other)
  {
    if orders != [] {
      var rest := OrdersExcept(orders[1..], id);
      FindOrderExcept(orders[1..], id, other);
      if orders[0].id != id {
        assert OrdersExcept(orders, id) == [orders[0]] + rest;
        assert ([orders[0]] + rest)[1..] == rest;
      } else {
        assert OrdersExcept(orders, id) == rest;
      }
    }
  }

  /** The foreign key still holds after the cascading delete. */
  lemma DeleteOrderKeepsOwnership(store: Store, id: Id)
    requires Owned(store.orders, store.executions)
    ensures Owned(DeleteOrder(store, id).orders, DeleteOrder(store, id).executions)
  {
    forall e | e in DeleteOrder(store, id).executions
      ensures FindOrder(DeleteOrder(store, id).orders, e.orderId).Some?
    {
      FindOrderExcept(store.orders, id, e.orderId);
    }
  }
}
