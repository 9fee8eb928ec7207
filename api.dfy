/** The order request handlers: submission behind the pre-trade risk check,
    lookup, cancellation and listing, over an order table, a dispatch queue
    to the protocol gateway, a map of metric counters and a trace of the
    commit and enqueue steps. */
module Api {
  import opened Tables
  import opened Models
  import opened RiskLimits
  import opened Positions

  /** A submitted order, its enumerations already reduced to their values. */
  datatype OrderRequest = OrderRequest(clientId: string, symbol: string, side: string, orderType: string,
                                       qty: real, price: Option<real>, timeInForce: string)

  /** The limit attributes the risk check reads: a stored row's, or the
      permissive default's. */
  datatype Limit = Limit(clientId: string, symbol: Option<string>, maxNotional: real,
                         maxOrderSize: real, tradingHours: string, blocked: bool)

  /** The static description of a symbol handed to the risk check. */
  datatype SymbolSpec = SymbolSpec(refPrice: real)

  /** The risk check's `(ok, reason)`. */
  datatype Verdict = Verdict(ok: bool, reason: string)

  /** The pre-trade risk check; its rules are not part of this model. Besides
      the request, the limit and the symbol's description it is given the
      submission time, so that a check against the trading-hours window can
      be expressed. */
  type Validator = (OrderRequest, Limit, SymbolSpec, Timestamp) -> Verdict

  const PermissiveMaxNotional: real := 1_000_000_000_000.0
  const PermissiveMaxOrderSize: real := 1_000_000_000.0
  const AllDay := "00:00-23:59"

  /** The attributes of a stored row, as the risk check sees them. */
  function AsLimit(r: RiskLimit): Limit {
    Limit(r.clientId, r.symbol, r.maxNotional, r.maxOrderSize, r.tradingHours, r.blocked)
  }

  /** The limit substituted when the client has no row: general, unblocked,
      open all day and with very large size and notional ceilings. */
  function DefaultLimit(clientId: string): (l: Limit)
    ensures l.clientId == clientId && l.symbol.None?
    ensures l.maxNotional == 1_000_000_000_000.0 && l.maxOrderSize == 1_000_000_000.0
    ensures l.tradingHours == "00:00-23:59" && !l.blocked
  {
    Limit(clientId, None, PermissiveMaxNotional, PermissiveMaxOrderSize, AllDay, false)
  }

  /** The limit the risk check is given for an order: the stored limit when
      one is found, otherwise the permissive default. */
  function EffectiveLimit(rows: seq<RiskLimit>, clientId: string, symbol: string): (l: Limit)
    ensures l.clientId == clientId
    ensures l.symbol.Some? ==> l.symbol == Some(symbol)
    ensures ByClientSymbol(rows, clientId, symbol).None? ==> l == DefaultLimit(clientId)
    ensures ByClientSymbol(rows, clientId, symbol).Some? ==> l == AsLimit(ByClientSymbol(rows, clientId, symbol).value)
  {
    match ByClientSymbol(rows, clientId, symbol)
    case Some(r) => AsLimit(r)
    case None => DefaultLimit(clientId)
  }

  /** ASCII upper-casing of one character. */
  function UpperChar(c: char): char {
    if 'a' <= c <= 'z' then (c as int - 32) as char else c
  }

  function Upper(s: string): (u: string)
    ensures |u| == |s|
    ensures forall i :: 0 <= i < |s| ==> u[i] == UpperChar(s[i])
  {
    seq(|s|, i requires 0 <= i < |s| => UpperChar(s[i]))
  }

  predicate StartsWith(s: string, prefix: string) {
    |prefix| <= |s| && s[..|prefix|] == prefix
  }

  const GoldRefPrice: real := 2000.0
  const OtherRefPrice: real := 1.10

  /** The static reference price: 2000.0 exactly for symbols spelling XAU in
      their first three letters, in either case, and 1.10 for all others. */
  function RefPrice(symbol: string): (px: real)
    ensures px == 2000.0 <==>
      |symbol| >= 3 && symbol[0] in "xX" && symbol[1] in "aA" && symbol[2] in "uU"
    ensures px != 2000.0 ==> px == 1.10
  {
    if StartsWith(Upper(symbol), "XAU") then GoldRefPrice else OtherRefPrice
  }

  /** `symbol_spec`: the description handed to the risk check carries the
      symbol's reference price. */
  function SymbolSpecFor(symbol: string): (spec: SymbolSpec)
    ensures spec.refPrice == 2000.0 <==>
      |symbol| >= 3 && symbol[0] in "xX" && symbol[1] in "aA" && symbol[2] in "uU"
    ensures spec.refPrice == 2000.0 || spec.refPrice == 1.10
  {
    SymbolSpec(RefPrice(symbol))
  }

  // ----- metric counters -----

  const OrdersTotal := "orders_total"
  const OrdersRejected := "orders_rejected"

  /** The counter tagged with the rejection reason. */
  function RejectKey(reason: string): string {
    "risk_rejects:" + reason
  }

  /** A counter's value; a counter never recorded reads as 0. */
  function Counter(m: map<string, int>, name: string): int {
    if name in m then m[name] else 0
  }

  /** `record(name, value)`: adds value to one counter. */
  function Record(m: map<string, int>, name: string, value: int): (m': map<string, int>)
    ensures Counter(m', name) == Counter(m, name) + value
    ensures forall other :: other != name ==> Counter(m', other) == Counter(m, other)
    ensures m'.Keys == m.Keys + {name}
  {
    m[name := Counter(m, name) + value]
  }

  /** The reason-tagged counter is never one of the two fixed counters. */
  lemma RejectKeyDistinct(reason: string)
    ensures RejectKey(reason) != OrdersRejected && RejectKey(reason) != OrdersTotal
  {
    assert RejectKey(reason)[0] == 'r';
    assert OrdersRejected[0] == 'o' && OrdersTotal[0] == 'o';
  }

  /** A rejection counts one rejected order and one rejection for its reason,
      and touches no other counter. */
  lemma RejectCounters(m: map<string, int>, reason: string)
    ensures var m' := Record(Record(m, OrdersRejected, 1), RejectKey(reason), 1);
      && Counter(m', OrdersRejected) == Counter(m, OrdersRejected) + 1
      && Counter(m', RejectKey(reason)) == Counter(m, RejectKey(reason)) + 1
      && Counter(m', OrdersTotal) == Counter(m, OrdersTotal)
      && forall other :: other != OrdersRejected && other != RejectKey(reason) ==> Counter(m', other) == Counter(m, other)
  {
    RejectKeyDistinct(reason);
  }

  // ----- responses and the record mapper -----

  /** The API's view of an order. */
  datatype OrderView = OrderView(id: Id, clientId: string, symbol: string, side: string, orderType: string,
                                 qty: real, price: Option<real>, status: string, cumQty: real,
                                 avgPx: Option<real>, createdAt: Timestamp, updatedAt: Timestamp)

  /** `to_schema`: copies every column except the time in force. */
  function ToSchema(o: Order): (v: OrderView)
    ensures v.id == o.id && v.clientId == o.clientId && v.symbol == o.symbol
    ensures v.side == o.side && v.orderType == o.orderType && v.qty == o.qty && v.price == o.price
    ensures v.status == o.status && v.cumQty == o.cumQty && v.avgPx == o.avgPx
    ensures v.createdAt == o.createdAt && v.updatedAt == o.updatedAt
  {
    OrderView(o.id, o.clientId, o.symbol, o.side, o.orderType, o.qty, o.price, o.status,
              o.cumQty, o.avgPx, o.createdAt, o.updatedAt)
  }

  /** The mapper is one-to-one on everything it copies: two orders have the
      same view exactly when they differ at most in their time in force. */
  lemma ToSchemaOneToOne(a: Order, b: Order)
    ensures ToSchema(a) == ToSchema(b) <==> a.(timeInForce := b.timeInForce) == b
  {
    if ToSchema(a) == ToSchema(b) {
      assert ToSchema(a).id == ToSchema(b).id;
    }
  }

  datatype Response =
    | Created(order: OrderView)
    | RiskReject(error: string, reason: string)
    | NotFound
    | Ok(order: OrderView)

  const RiskRejectError := "RISK_REJECT"

  function StatusCode(r: Response): int {
    match r
    case Created(_) => 201
    case RiskReject(_, _) => 400
    case NotFound => 404
    case Ok(_) => 200
  }

  // ----- the dispatch queue and the step trace -----

  /** An event for the protocol gateway's session worker. */
  datatype DispatchEvent = Send(orderId: Id) | Cancel(orderId: Id)

  /** One observable step of a handler: a commit making `visible` durable,
      or an event handed to the gateway. */
  datatype Step = Commit(visible: set<Id>) | Enqueue(event: DispatchEvent)

  function IdsOf(orders: seq<Order>): (ids: set<Id>)
    ensures forall k :: 0 <= k < |orders| ==> orders[k].id in ids
  {
    set o | o in orders :: o.id
  }

  /** Every enqueue comes straight after a commit that made its order durable. */
  ghost predicate CommitBeforeEnqueue(trace: seq<Step>) {
    forall i :: 0 <= i < |trace| && trace[i].Enqueue? ==>
      i > 0 && trace[i - 1].Commit? && trace[i].event.orderId in trace[i - 1].visible
  }

  /** The events of a trace, in the order they were enqueued. */
  function Enqueued(trace: seq<Step>): seq<DispatchEvent>
    decreases |trace|
  {
    if trace == [] then []
    else
      var last := trace[|trace| - 1];
      Enqueued(trace[..|trace| - 1]) + (if last.Enqueue? then [last.event] else [])
  }

  lemma EnqueuedAppend(trace: seq<Step>, s: Step)
    ensures Enqueued(trace + [s]) == Enqueued(trace) + (if s.Enqueue? then [s.event] else [])
  {
    assert (trace + [s])[..|trace|] == trace;
  }

  /** Every queued event was enqueued right after a commit that already
      held its order: the gateway never sees an order the store has not
      made durable. */
  lemma {:induction false} QueuedWereCommitted(trace: seq<Step>, k: nat)
    requires CommitBeforeEnqueue(trace) && k < |Enqueued(trace)|
    ensures exists i :: 0 < i < |trace| && trace[i] == Enqueue(Enqueued(trace)[k])
                        && trace[i - 1].Commit? && Enqueued(trace)[k].orderId in trace[i - 1].visible
    decreases |trace|
  {
    var init := trace[..|trace| - 1];
    var last := trace[|trace| - 1];
    assert CommitBeforeEnqueue(init) by {
      forall i | 0 <= i < |init| && init[i].Enqueue?
        ensures i > 0 && init[i - 1].Commit? && init[i].event.orderId in init[i - 1].visible
      {
        assert init[i] == trace[i];
      }
    }
    if k < |Enqueued(init)| {
      QueuedWereCommitted(init, k);
      var i :| 0 < i < |init| && init[i] == Enqueue(Enqueued(init)[k])
               && init[i - 1].Commit? && Enqueued(init)[k].orderId in init[i - 1].visible;
      assert trace[i] == init[i] && trace[i - 1] == init[i - 1];
    } else {
      var i := |trace| - 1;
      assert trace[i].Enqueue?;
    }
  }

  // ----- the handlers -----

  /** Keeps only the orders meeting each given filter, in table order. */
  predicate OrderMatches(o: Order, clientId: Option<string>, symbol: Option<string>) {
    && (clientId.Some? ==> o.clientId == clientId.value)
    && (symbol.Some? ==> o.symbol == symbol.value)
  }

  function SelectOrders(orders: seq<Order>, clientId: Option<string>, symbol: Option<string>): (r: seq<Order>)
    ensures forall o :: o in r <==> o in orders && OrderMatches(o, clientId, symbol)
  {
    if orders == [] then []
    else (if OrderMatches(orders[0], clientId, symbol) then [orders[0]] else [])
         + SelectOrders(orders[1..], clientId, symbol)
  }

  class OrderApi {
    /** The order table of the session. */
    var orders: seq<Order>
    /** The execution table, read by the positions endpoint. */
    var executions: seq<Execution>
    /** The risk-limit table, read-only on the order path. */
    const limits: seq<RiskLimit>
    /** The pre-trade risk check. */
    const validate: Validator
    /** The events handed to the protocol gateway. */
    var queue: seq<DispatchEvent>
    var metrics: map<string, int>
    var trace: seq<Step>
    /** The id supply: every id handed out so far is below it. */
    var nextId: Id

    ghost predicate Valid()
      reads this
    {
      && UniqueIds(orders)
      && (forall k :: 0 <= k < |orders| ==> orders[k].id < nextId)
      && CommitBeforeEnqueue(trace)
      && queue == Enqueued(trace)
      && (forall k :: 0 <= k < |queue| ==> queue[k].orderId in IdsOf(orders))
    }

    constructor (orders0: seq<Order>, executions0: seq<Execution>, limits0: seq<RiskLimit>,
                 validate0: Validator, nextId0: Id)
      requires UniqueIds(orders0) && forall k :: 0 <= k < |orders0| ==> orders0[k].id < nextId0
      ensures Valid()
      ensures orders == orders0 && executions == executions0 && limits == limits0
      ensures validate == validate0 && nextId == nextId0
      ensures queue == [] && metrics == map[] && trace == []
    {
      orders, executions, limits, validate, nextId := orders0, executions0, limits0, validate0, nextId0;
      queue, metrics, trace := [], map[], [];
    }

    /** The risk check's verdict on a request submitted at `now`: judged
        under the client's limit row for the symbol when one is found, and
        under the permissive default otherwise. */
    function Assess(payload: OrderRequest, now: Timestamp): (v: Verdict)
      ensures ByClientSymbol(limits, payload.clientId, payload.symbol).None? ==>
        v == validate(payload, DefaultLimit(payload.clientId), SymbolSpecFor(payload.symbol), now)
      ensures ByClientSymbol(limits, payload.clientId, payload.symbol).Some? ==>
        v == validate(payload, AsLimit(ByClientSymbol(limits, payload.clientId, payload.symbol).value),
                      SymbolSpecFor(payload.symbol), now)
    {
      validate(payload, EffectiveLimit(limits, payload.clientId, payload.symbol), SymbolSpecFor(payload.symbol), now)
    }

    /** `db.commit()`: the current orders become durable. */
    method CommitSession()
      requires Valid()
      modifies this`trace
      ensures Valid()
      ensures trace == old(trace) + [Commit(IdsOf(orders))]
    {
      EnqueuedAppend(trace, Commit(IdsOf(orders)));
      trace := trace + [Commit(IdsOf(orders))];
    }

    /** `enqueue_send` / `enqueue_cancel`: callable only straight after a
        commit that made the event's order durable. */
    method EnqueueEvent(event: DispatchEvent)
      requires Valid()
      requires trace != [] && trace[|trace| - 1].Commit? && event.orderId in trace[|trace| - 1].visible
      requires event.orderId in IdsOf(orders)
      modifies this`trace, this`queue
      ensures Valid()
      ensures queue == old(queue) + [event] && trace == old(trace) + [Enqueue(event)]
    {
      EnqueuedAppend(trace, Enqueue(event));
      trace := trace + [Enqueue(event)];
      queue := queue + [event];
    }

    /** `repo.create` and `flush`: stores one order under a fresh id. */
    method StoreNew(payload: OrderRequest, now: Timestamp) returns (order: Order)
      requires Valid()
      modifies this`orders, this`nextId
      ensures Valid()
      ensures order == NewOrder(old(nextId), now, payload.clientId, payload.symbol, payload.side,
                                payload.orderType, payload.qty, payload.price, payload.timeInForce)
      ensures orders == old(orders) + [order] && nextId == old(nextId) + 1
    {
      order := NewOrder(nextId, now, payload.clientId, payload.symbol, payload.side,
                        payload.orderType, payload.qty, payload.price, payload.timeInForce);
      assert IdsOf(orders + [order]) == IdsOf(orders) + {order.id};
      orders := orders + [order];
      nextId := nextId + 1;
    }

    /** The reject branch of `create_order`: counts the rejection, overall
        and under its reason, and answers 400 with the reason. */
    method Reject(reason: string) returns (resp: Response)
      modifies this`metrics
      ensures metrics == Record(Record(old(metrics), OrdersRejected, 1), RejectKey(reason), 1)
      ensures resp == RiskReject(RiskRejectError, reason) && StatusCode(resp) == 400
    {
      metrics := Record(metrics, OrdersRejected, 1);
      metrics := Record(metrics, RejectKey(reason), 1);
      resp := RiskReject(RiskRejectError, reason);
    }

    /** The accept branch of `create_order`: counts the order, stores it as
        NEW, commits, and only then enqueues its SEND. */
    method Accept(payload: OrderRequest, now: Timestamp) returns (resp: Response)
      requires Valid()
      modifies this`orders, this`nextId, this`metrics, this`trace, this`queue
      ensures Valid()
      ensures var o := NewOrder(old(nextId), now, payload.clientId, payload.symbol, payload.side,
                                payload.orderType, payload.qty, payload.price, payload.timeInForce);
        && metrics == Record(old(metrics), OrdersTotal, 1)
        && orders == old(orders) + [o]
        && nextId == old(nextId) + 1
        && queue == old(queue) + [Send(o.id)]
        && trace == old(trace) + [Commit(IdsOf(orders)), Enqueue(Send(o.id))]
        && resp == Created(ToSchema(o))
        && StatusCode(resp) == 201
    {
      metrics := Record(metrics, OrdersTotal, 1);
      var order := StoreNew(payload, now);
      ghost var stored := trace;
      assert order.id in IdsOf(orders);
      CommitSession();
      assert order.id in trace[|trace| - 1].visible;
      EnqueueEvent(Send(order.id));
      assert trace == stored + [Commit(IdsOf(orders)), Enqueue(Send(order.id))];
      resp := Created(ToSchema(order));
    }

    /** `create_order`. A rejected request only counts the rejection; an
        accepted one counts, stores one NEW order, commits, and then
        enqueues one SEND for it. */
    method CreateOrder(payload: OrderRequest, now: Timestamp) returns (resp: Response)
      requires Valid()
      modifies this`orders, this`nextId, this`metrics, this`trace, this`queue
      ensures Valid()
      ensures !Assess(payload, now).ok ==>
        && resp == RiskReject(RiskRejectError, Assess(payload, now).reason)
        && StatusCode(resp) == 400
        && metrics == Record(Record(old(metrics), OrdersRejected, 1), RejectKey(Assess(payload, now).reason), 1)
        && orders == old(orders) && queue == old(queue) && trace == old(trace) && nextId == old(nextId)
      ensures Assess(payload, now).ok ==>
        var o := NewOrder(old(nextId), now, payload.clientId, payload.symbol, payload.side,
                          payload.orderType, payload.qty, payload.price, payload.timeInForce);
        && metrics == Record(old(metrics), OrdersTotal, 1)
        && orders == old(orders) + [o]
        && nextId == old(nextId) + 1
        && queue == old(queue) + [Send(o.id)]
        && trace == old(trace) + [Commit(IdsOf(orders)), Enqueue(Send(o.id))]
        && resp == Created(ToSchema(o))
        && StatusCode(resp) == 201
    {
      var clientLimit := EffectiveLimit(limits, payload.clientId, payload.symbol);
      var symbolSpec := SymbolSpecFor(payload.symbol);
      var verdict := validate(payload, clientLimit, symbolSpec, now);
      if !verdict.ok {
        resp := Reject(verdict.reason);
      } else {
        resp := Accept(payload, now);
      }
    }

    /** `get_order`: the stored order's view, or 404. */
    method GetOrder(id: Id) returns (resp: Response)
      ensures resp.NotFound? || resp.Ok?
      ensures resp.NotFound? <==> forall k :: 0 <= k < |orders| ==> orders[k].id != id
      ensures resp.Ok? ==> exists k :: 0 <= k < |orders| && orders[k].id == id && resp.order == ToSchema(orders[k])
    {
      var order := FindOrder(orders, id);
      if order.None? {
        return NotFound;
      }
      resp := Ok(ToSchema(order.value));
    }

    /** `cancel_order`: 404 for an unknown id; otherwise commit, enqueue one
        CANCEL and return the order as it was read, its status untouched. */
    method CancelOrder(id: Id) returns (resp: Response)
      requires Valid()
      modifies this`trace, this`queue
      ensures Valid()
      ensures FindOrder(orders, id).None? ==>
        resp == NotFound && StatusCode(resp) == 404 && queue == old(queue) && trace == old(trace)
      ensures FindOrder(orders, id).Some? ==>
        && resp == Ok(ToSchema(FindOrder(orders, id).value))
        && resp.order.id == id
        && queue == old(queue) + [Cancel(id)]
        && trace == old(trace) + [Commit(IdsOf(orders)), Enqueue(Cancel(id))]
    {
      var order := FindOrder(orders, id);
      if order.None? {
        return NotFound;
      }
      CommitSession();
      EnqueueEvent(Cancel(order.value.id));
      resp := Ok(ToSchema(order.value));
    }

    /** `list_orders`: the views of the orders meeting the given filters. */
    method ListOrders(clientId: Option<string>, symbol: Option<string>) returns (views: seq<OrderView>)
      ensures |views| == |SelectOrders(orders, clientId, symbol)|
      ensures forall k :: 0 <= k < |views| ==>
        views[k] == ToSchema(SelectOrders(orders, clientId, symbol)[k])
        && OrderMatches(SelectOrders(orders, clientId, symbol)[k], clientId, symbol)
      ensures clientId.None? && symbol.None? ==> |views| == |orders|
    {
      var items := SelectOrders(orders, clientId, symbol);
      views := seq(|items|, k requires 0 <= k < |items| => ToSchema(items[k]));
      if clientId.None? && symbol.None? {
        SelectOrdersAll(orders);
      }
      forall k | 0 <= k < |items| ensures OrderMatches(items[k], clientId, symbol) {
        assert items[k] in items;
      }
    }

    /** `positions`: the client's positions over the order and execution tables. */
    method ListPositions(clientId: string) returns (positions: seq<Position>)
      ensures forall k :: 0 <= k < |positions| ==>
        && positions[k].clientId == clientId && positions[k].unrealizedPnl == 0.0
        && positions[k].netQty == NetQty(orders, executions, clientId, positions[k].symbol)
        && positions[k].avgPx == AvgPx(orders, executions, clientId, positions[k].symbol)
        && Filled(orders, executions, clientId, positions[k].symbol)
      ensures forall symbol :: Filled(orders, executions, clientId, symbol) ==>
        exists k :: 0 <= k < |positions| && positions[k].symbol == symbol
      ensures forall i, j :: 0 <= i < j < |positions| ==> positions[i].symbol != positions[j].symbol
    {
      positions := ByClient(orders, executions, clientId);
    }
  }

  lemma {:induction false} SelectOrdersAll(orders: seq<Order>)
    ensures SelectOrders(orders, None, None) == orders
  {
    if orders != [] {
      SelectOrdersAll(orders[1..]);
    }
  }
}
