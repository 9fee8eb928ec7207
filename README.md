# Order management core: risk-limit lookup, order handlers, positions

A Dafny model of the order path of a multi-client trading gateway. It covers:

- the persisted records (orders, executions, risk limits) with their column defaults, the
  primary-key lookup and the order-to-execution cascade on delete;
- the risk-limit repository: creating rows, listing with optional filters, and the lookup rule
  "first symbol-specific row, else first client-general row, else nothing";
- position aggregation: a client's executions joined with their orders, grouped by symbol
  into a signed net quantity, a quantity-weighted average price guarded against a zero
  denominator, and a zero unrealized P&L;
- the request handlers: order submission behind the pre-trade risk check, with the permissive
  default limit, the static reference price and the reject and accept branches; lookup;
  cancellation; listing; and the rule that a commit precedes every enqueue to the protocol
  gateway.

Files, one module each: `tables.dfy` (shared vocabulary), `models.dfy`, `risk_limits.dfy`,
`positions.dfy`, `api.dfy`.

How the model stands for the running system:

- Tables are sequences in table order. SQL queries become functions over them.
- Executing `select(...).where(...)` is `RiskLimits.Select` over a list of clauses, and
  `.first()` is `Tables.First`.
- Row ids are `nat`s drawn from a counter kept by the object that owns the table. The
  counter stands for uuid4.
- Timestamps are opaque `nat`s passed in by the caller (`now`).
- Quantities and prices are `real`.
- The risk validator `validate_order` is a function-valued constant of the handler object.
  Its rules are not modelled. Besides its three arguments it is given the submission time,
  so that a trading-hours check can be expressed.
- The metric counters are a `map<string, int>`.
- The gateway's queue is a sequence of `Send`/`Cancel` events.
- Each handler appends its observable steps (`Commit(visible ids)`, `Enqueue(event)`) to a
  trace. `EnqueueEvent` can only be called straight after a commit that made the event's
  order durable, and the object invariant `Valid()` keeps the queue equal to the
  enqueued events of the trace.

Where the system's design description and the code disagree, the model follows the code:

- `cancel_order` does not mark the order cancelled. It commits and enqueues a CANCEL, leaving
  status and fills as they were.
- Net quantity counts every non-BUY side as negative, not only SELL.
- The permissive default limit has concrete values (1e12 notional, 1e9 size,
  "00:00-23:59"), not "unrestricted".
- `to_schema` does not carry the time in force.

## Model

| member | source | states |
|---|---|---|
| Tables.First | app/repositories/risk_limits.py:35 | `.first()` is empty exactly for an empty result, and otherwise is its first row |
| Models.NewOrder | app/models.py:14-28 | a fresh order copies the given columns, takes the supplied id and clock for its generated columns, and has status NEW, cum_qty 0 and no avg_px |
| Models.NewOrderDefaults | app/models.py:20-21 | an order created without a price or time in force has no price and time in force GTC |
| Models.RiskLimitDefaults | app/models.py:49-53 | a risk limit created without a symbol or blocked flag is client-general and not blocked |
| Models.FindOrder | app/models.py:14 | primary-key lookup: a found order is in the table with that id, and nothing is found exactly when no row has the id |
| Models.FindOrderUnique | app/models.py:14 | with unique ids, looking up a row's id returns that row |
| Models.FindOrderAppend | app/models.py:14 | inserting a row does not change the lookup of an id already stored |
| Models.ExactlyOneOwner | app/models.py:36 | under the primary key and the foreign key, every stored execution's order_id matches some order, and no two different orders |
| Models.ExecutionsOf | app/models.py:30 | an order's executions are exactly the executions whose order_id is that order's id |
| Models.ExecutionsOfAppend | app/models.py:30 | an order's executions in a concatenated table are its executions in each part, in order |
| Models.OrdersExcept | app/models.py:11-30 | the order table after a delete holds exactly the other orders |
| Models.ExecutionsExcept | app/models.py:36 | the execution table after a cascade holds exactly the executions of other orders |
| Models.DeleteOrder | app/models.py:30 | deleting an order removes it and exactly the executions that reference it |
| Models.ExecutionsExceptKeepsOthers | app/models.py:30 | the cascade keeps every other order's executions unchanged and in order |
| Models.ExecutionsExceptDropsOwn | app/models.py:36 | after the cascade, no execution of the deleted order is left |
| Models.DeleteOrderCascades | app/models.py:30-36 | after deleting an order it has no executions left and every other order keeps exactly its executions |
| Models.FindOrderExcept | app/models.py:14 | deleting one order does not change the lookup of any other id |
| Models.DeleteOrderKeepsOwnership | app/models.py:36 | the foreign key from executions to orders still holds after the cascading delete |
| RiskLimits.Select | app/repositories/risk_limits.py:20-27 | a query returns exactly the rows meeting every clause, and never more rows than the table |
| RiskLimits.SelectAppend | app/repositories/risk_limits.py:27 | selection distributes over concatenation of the table, so results keep table order |
| RiskLimits.SelectAll | app/repositories/risk_limits.py:21 | a query without clauses returns the whole table |
| RiskLimits.SelectFirst | app/repositories/risk_limits.py:31-35 | `.first()` of a query is the earliest matching row in table order |
| RiskLimits.SelectNone | app/repositories/risk_limits.py:38-42 | `.first()` finds nothing exactly when no row meets the query |
| RiskLimits.ListQuery | app/repositories/risk_limits.py:21-25 | the clauses `list` adds hold of a row exactly when the row meets every given filter; an absent filter imposes nothing |
| RiskLimits.SpecificQuery | app/repositories/risk_limits.py:31-34 | the specific query's clauses hold exactly of rows for that client and symbol |
| RiskLimits.GeneralQuery | app/repositories/risk_limits.py:38-41 | the general query's clauses hold exactly of that client's rows without a symbol |
| RiskLimits.Get | app/repositories/risk_limits.py:17-18 | a found row is in the table with the id, and nothing is found exactly when no row has the id |
| RiskLimits.GetAppend | app/repositories/risk_limits.py:11-18 | after appending a row, stored ids resolve as before and the new id resolves to the new row |
| RiskLimits.ByClientSymbol | app/repositories/risk_limits.py:29-42 | a returned limit is a table row of the queried client that is either specific to the symbol or client-general |
| RiskLimits.SpecificWins | app/repositories/risk_limits.py:31-37 | the earliest symbol-specific row is returned, whatever client-general rows exist |
| RiskLimits.GeneralFallback | app/repositories/risk_limits.py:38-42 | with no specific row, the earliest client-general row is returned |
| RiskLimits.NoLimitFound | app/repositories/risk_limits.py:29-42 | nothing is returned exactly when the client has neither a specific nor a general row |
| RiskLimits.RiskLimitsRepository.constructor | app/repositories/risk_limits.py:8-9 | a repository wraps the session's risk-limit table as it stands, with unique ids below the id supply |
| RiskLimits.RiskLimitsRepository.Create | app/repositories/risk_limits.py:11-15 | adds exactly one row built from the columns, with defaults for symbol and blocked and a fresh id; existing rows and their lookups are unchanged; `get` of the new id returns it |
| RiskLimits.RiskLimitsRepository.List | app/repositories/risk_limits.py:20-27 | returns exactly the rows satisfying each given filter, in table order, and the whole table without filters |
| Positions.SignedQty | app/repositories/positions.py:10-13 | a fill's signed quantity keeps its size and is positive for BUY, negated for every other side |
| Positions.NetQty | app/repositories/positions.py:18 | reference definition: the sum of signed quantities over the client's joined executions on the symbol; its properties are NetQtySplit and UnfilledIsEmpty |
| Positions.QtySum | app/repositories/positions.py:21 | reference definition: the sum of filled quantities over the client's joined executions on the symbol |
| Positions.NotionalSum | app/repositories/positions.py:20 | reference definition: the sum of quantity times price over the client's joined executions on the symbol |
| Positions.AvgPx | app/repositories/positions.py:19-22 | the average price times the quantity sum is the notional sum, and the price is 0 when the quantity sum is 0 |
| Positions.NullIf | app/repositories/positions.py:21 | `nullif(x, y)` is NULL exactly when x equals y, and x otherwise |
| Positions.Divide | app/repositories/positions.py:20-21 | SQL division is NULL exactly when the divisor is NULL, and otherwise its result times the divisor is the dividend |
| Positions.OrZero | app/repositories/positions.py:31-32 | `value or 0` is the value when present and 0 when NULL |
| Positions.ReportedAvgPx | app/repositories/positions.py:19-32 | the reported average price is Σ(qty·px)/Σqty, and 0 when Σqty is 0 (NULLIF, then `or 0`) |
| Positions.Extend | app/repositories/positions.py:18-22 | one more execution adds its amounts to its own group's sums and to no other group's |
| Positions.UnfilledIsEmpty | app/repositories/positions.py:24 | a symbol without joined executions has all sums 0 |
| Positions.IndexOf | app/repositories/positions.py:26 | finds the group row for a symbol, or reports that there is none |
| Positions.SkipSummarises | app/repositories/positions.py:24-25 | an execution that joins none of the client's orders leaves the accumulated rows correct |
| Positions.UpdateSummarises | app/repositories/positions.py:26 | folding an execution into its symbol's existing row keeps the accumulated rows correct |
| Positions.AppendSummarises | app/repositories/positions.py:26 | starting a row for a new symbol keeps the accumulated rows correct |
| Positions.GroupRows | app/repositories/positions.py:10-27 | one row per symbol with at least one execution on the client's orders, distinct symbols, each holding that symbol's signed sum, quantity sum and notional sum |
| Positions.Assemble | app/repositories/positions.py:29-39 | one position per group row, in order, with the client id, the symbol, the net quantity, the guarded average price and unrealized P&L 0 |
| Positions.ByClient | app/repositories/positions.py:9-40 | every position belongs to the client, has P&L 0, and carries its symbol's net quantity and average price; there is exactly one position per symbol that has fills |
| Positions.NetQtySplit | app/repositories/positions.py:10-18 | net quantity is the BUY volume minus the volume of all other sides |
| Positions.FilledIff | app/repositories/positions.py:24-26 | a symbol gets a position exactly when some execution joins one of the client's orders on it, so orders without executions produce nothing |
| Positions.ForeignExecutionIgnored | app/repositories/positions.py:24-25 | an execution of another client's order, or of no order, changes none of the client's sums or groups |
| Positions.WorkedExample | app/repositories/positions.py:10-22 | BUY 10 at 100 and SELL 4 at 110 give net quantity 6 and average price 1440/14 |
| Api.DefaultLimit | app/api.py:44-53 | the substituted limit is the client's, has no symbol, notional 1e12, size 1e9, hours 00:00-23:59, and is not blocked |
| Api.EffectiveLimit | app/api.py:42-53 | the limit given to the risk check is always the client's, is specific to the symbol or general, and is the default exactly when no row is found |
| Api.Upper | app/api.py:56 | upper-casing keeps the length and maps each character to its capital |
| Api.RefPrice | app/api.py:56 | the reference price is 2000.0 exactly when the symbol starts with XAU in any case, and 1.10 otherwise |
| Api.SymbolSpecFor | app/api.py:55-57 | the symbol description carries 2000.0 exactly for XAU symbols in any case, and 1.10 otherwise |
| Api.Record | app/api.py:62-70 | `record` adds the value to one counter and leaves every other counter unchanged |
| Api.RejectKeyDistinct | app/api.py:62-63 | the reason-tagged rejection counter is never `orders_rejected` or `orders_total` |
| Api.RejectCounters | app/api.py:60-63 | a rejection adds 1 to `orders_rejected` and 1 to `risk_rejects:<reason>`, and changes no other counter |
| Api.ToSchema | app/api.py:151-165 | every column of the view equals the same column of the order |
| Api.ToSchemaOneToOne | app/api.py:151-165 | two orders have the same view exactly when they differ at most in time in force |
| Api.IdsOf | app/api.py:86 | every stored order's id is among the ids a commit makes durable |
| Api.EnqueuedAppend | app/api.py:88 | a step adds to the queue only if it is an enqueue, and then adds just its event |
| Api.QueuedWereCommitted | app/api.py:85-88 | every queued event was enqueued straight after a commit that already held its order |
| Api.SelectOrders | app/api.py:99-100 | the listed orders are exactly the table's orders meeting each given filter |
| Api.SelectOrdersAll | app/api.py:94-100 | listing without filters returns every order |
| Api.OrderApi.constructor | app/api.py:25-27 | a handler object over given tables starts with an empty queue, empty counters and an empty trace |
| Api.OrderApi.Assess | app/api.py:41-59 | the risk check judges the request under the client's limit row for the symbol when there is one, under the permissive default otherwise, with the symbol's description and the submission time |
| Api.OrderApi.CommitSession | app/api.py:86 | a commit records the currently stored ids as durable |
| Api.OrderApi.EnqueueEvent | app/api.py:88 | enqueueing, allowed only straight after a commit holding the order, appends one event to the queue and to the trace |
| Api.OrderApi.StoreNew | app/api.py:72-85 | stores exactly one fresh NEW order with the payload's fields under a new id |
| Api.OrderApi.Reject | app/api.py:60-67 | answers 400 RISK_REJECT with the reason and counts the rejection overall and under its reason |
| Api.OrderApi.Accept | app/api.py:69-90 | counts the order, stores one NEW order, commits, then enqueues exactly one SEND for its id, and answers 201 with its view |
| Api.OrderApi.CreateOrder | app/api.py:35-90 | on rejection: 400, two counters, no order, no enqueue, no commit; on acceptance: one counter, one NEW order, commit then SEND, 201 |
| Api.OrderApi.GetOrder | app/api.py:104-110 | answers with the view of the stored order with that id, or 404 exactly when there is none |
| Api.OrderApi.CancelOrder | app/api.py:113-126 | unknown id: 404 with nothing enqueued or committed; otherwise commit, then one CANCEL, the order returned as read, and no change to any order |
| Api.OrderApi.ListOrders | app/api.py:93-101 | the views of exactly the orders meeting the filters, one per order, in order |
| Api.OrderApi.ListPositions | app/api.py:129-133 | exactly one position per symbol with fills on the client's orders, each with the client id, the net quantity, the guarded average price and P&L 0 |

## Left out

- Persistence plumbing is not modelled: the engine URL, the session factory, `init_db` and
  `create_all` at import time, `flush`, and the async/await machinery. Tables are values, and
  a commit is a trace step.
- The source calls async repository methods without `await` (`by_client_symbol`, `by_client`),
  and it imports a `session_scope` that the database module does not define. The model uses
  the result the awaited call would give.
- Routing, dependency injection, `HTTPException` and the JSON response objects are left out.
  They appear only as the `Response` datatype with its status codes.
- The health endpoint is left out: it has no logic.
- The metrics snapshot endpoint and the reconciliation endpoint are left out. Their services
  are not part of this model.
- The risk validator is a parameter with no body. Trading-hours parsing and the size and
  notional checks are not modelled. The validator depends only on its three arguments and the
  submission time. Any other state it might read is not modelled.
- Row order: SELECTs without ORDER BY are assumed to return rows in insertion order. SQL does
  not guarantee this. RiskLimits.SelectFirst, RiskLimits.SpecificWins,
  RiskLimits.GeneralFallback and RiskLimits.RiskLimitsRepository.List speak of "earliest" or
  "table order" under that assumption. The membership and none-found parts of their contracts
  depend on no order.
- The protocol gateway is not modelled beyond its queue. The session worker, sequence
  numbers, heartbeats, retries and fill application involve network I/O and concurrency.
- The order repository is not part of this model. Its `create`, `get` and `list` are modelled
  as: insert the given columns under a fresh id; look up by primary key; filter by the given
  client and symbol in table order.
- Api.OrderApi.ListOrders: its contract rests on that assumed filter semantics of
  the repository's `list`.
- Concurrency between request handlers, and the per-order locking, are not modelled:
  each handler runs as one atomic step.
- uuid4 ids and `utcnow` timestamps: ids come from a counter and timestamps from a parameter.
  `updated_at`'s on-update refresh is not modelled, because no modelled handler updates an
  order row.
- Api.Upper: upper-cases ASCII letters only. Python's `str.upper` also maps non-ASCII
  letters, but no non-ASCII letter upper-cases to X, A or U, so the reference price rule
  is unaffected.
- IEEE floating point: quantities, prices and the constants are `real`. No rounding
  behaviour is claimed.
- Positions.ByClient: the order of the positions is not stated. SQL gives grouped rows in no
  particular order; the model emits symbols in order of their first execution.
- Positions.ByClient: the join resolves an execution's order by primary-key lookup, so it
  assumes order ids are unique, as the schema guarantees. Duplicate ids are not modelled.
- The Order column `type` is named `orderType`, because `type` is a Dafny keyword.
