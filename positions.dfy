/** Position aggregation: a client's executions joined with their orders
    and grouped by symbol into a signed net quantity and an average price. */
module Positions {
  import opened Tables
  import opened Models

  datatype Position = Position(clientId: string, symbol: string, netQty: real,
                               avgPx: real, unrealizedPnl: real)

  /** Execution e joins (inner join on the order's primary key) an order of
      this client on this symbol. */
  predicate InGroup(orders: seq<Order>, clientId: string, symbol: string, e: Execution) {
    var o := FindOrder(orders, e.orderId);
    o.Some? && o.value.clientId == clientId && o.value.symbol == symbol
  }

  /** The `case` expression: BUY counts positive, every other side negative. */
  function SignedQty(side: string, qty: real): (q: real)
    ensures q == qty || q == -qty
    ensures q == qty <==> side == "BUY" || qty == 0.0
  {
    if side == "BUY" then qty else -qty
  }

  function Last(executions: seq<Execution>): Execution
    requires executions != []
  {
    executions[|executions| - 1]
  }

  function Init(executions: seq<Execution>): seq<Execution>
    requires executions != []
  {
    executions[..|executions| - 1]
  }

  /** sum(signed_qty) over the group. */
  function NetQty(orders: seq<Order>, executions: seq<Execution>, clientId: string, symbol: string): real
    decreases |executions|
  {
    if executions == [] then 0.0
    else
      var e := Last(executions);
      NetQty(orders, Init(executions), clientId, symbol)
      + (if InGroup(orders, clientId, symbol, e) then SignedQty(FindOrder(orders, e.orderId).value.side, e.execQty) else 0.0)
  }

  /** sum(exec_qty) over the group. */
  function QtySum(orders: seq<Order>, executions: seq<Execution>, clientId: string, symbol: string): real
    decreases |executions|
  {
    if executions == [] then 0.0
    else
      var e := Last(executions);
      QtySum(orders, Init(executions), clientId, symbol)
      + (if InGroup(orders, clientId, symbol, e) then e.execQty else 0.0)
  }

  /** sum(exec_qty * exec_px) over the group. */
  function NotionalSum(orders: seq<Order>, executions: seq<Execution>, clientId: string, symbol: string): real
    decreases |executions|
  {
    if executions == [] then 0.0
    else
      var e := Last(executions);
      NotionalSum(orders, Init(executions), clientId, symbol)
      + (if InGroup(orders, clientId, symbol, e) then e.execQty * e.execPx else 0.0)
  }

  /** The group has at least one execution, so the grouped query yields a row for it. */
  predicate Filled(orders: seq<Order>, executions: seq<Execution>, clientId: string, symbol: string)
    decreases |executions|
  {
    executions != [] &&
    (Filled(orders, Init(executions), clientId, symbol) || InGroup(orders, clientId, symbol, Last(executions)))
  }

  /** The quantity-weighted mean price, 0 when the quantities sum to 0. */
  function AvgPx(orders: seq<Order>, executions: seq<Execution>, clientId: string, symbol: string): (px: real)
    ensures QtySum(orders, executions, clientId, symbol) == 0.0 ==> px == 0.0
    ensures QtySum(orders, executions, clientId, symbol) != 0.0 ==>
      px * QtySum(orders, executions, clientId, symbol) == NotionalSum(orders, executions, clientId, symbol)
  {
    var q := QtySum(orders, executions, clientId, symbol);
    if q == 0.0 then 0.0 else NotionalSum(orders, executions, clientId, symbol) / q
  }

  /** `nullif(x, y)`: NULL when x equals y. */
  function NullIf(x: real, y: real): (r: Option<real>)
    ensures r.None? <==> x == y
    ensures r.Some? ==> r.value == x
  {
    if x == y then None else Some(x)
  }

  /** SQL division, NULL when the divisor is NULL. */
  function Divide(x: real, y: Option<real>): (r: Option<real>)
    requires y.Some? ==> y.value != 0.0
    ensures r.Some? <==> y.Some?
    ensures r.Some? ==> r.value * y.value == x
  {
    if y.None? then None else Some(x / y.value)
  }

  /** Python's `value or 0` on a nullable float. */
  function OrZero(x: Option<real>): (r: real)
    ensures x.Some? ==> r == x.value
    ensures x.None? ==> r == 0.0
  {
    if x.None? then 0.0 else x.value
  }

  /** One accumulated group row of the grouped query. */
  datatype Group = Group(symbol: string, netQty: real, qtySum: real, notionalSum: real)

  /** A group with nothing accumulated yet. */
  function Empty(symbol: string): Group {
    Group(symbol, 0.0, 0.0, 0.0)
  }

  function Notional(e: Execution): real {
    e.execQty * e.execPx
  }

  /** Folds one execution of an order with this side into a group row. */
  function Add(g: Group, side: string, e: Execution): Group {
    Group(g.symbol, g.netQty + SignedQty(side, e.execQty), g.qtySum + e.execQty, g.notionalSum + Notional(e))
  }

  function GroupFor(orders: seq<Order>, executions: seq<Execution>, clientId: string, symbol: string): Group {
    Group(symbol, NetQty(orders, executions, clientId, symbol),
          QtySum(orders, executions, clientId, symbol),
          NotionalSum(orders, executions, clientId, symbol))
  }

  /** The average price the source reports for a group row: the SQL
      quotient guarded by NULLIF, then `or 0`. */
  function ReportedAvgPx(g: Group): (px: real)
    ensures px == if g.qtySum == 0.0 then 0.0 else g.notionalSum / g.qtySum
  {
    OrZero(Divide(g.notionalSum, NullIf(g.qtySum, 0.0)))
  }

  ghost predicate DistinctSymbols(groups: seq<Group>) {
    forall i, j :: 0 <= i < j < |groups| ==> groups[i].symbol != groups[j].symbol
  }

  /** Extending the executions by one row adds that row's contribution to
      its own group and to no other. */
  lemma Extend(orders: seq<Order>, executions: seq<Execution>, i: nat, clientId: string, symbol: string)
    requires i < |executions|
    ensures var e := executions[i]; var pre := executions[..i]; var post := executions[..i + 1];
      && GroupFor(orders, post, clientId, symbol) ==
           (if InGroup(orders, clientId, symbol, e)
            then Add(GroupFor(orders, pre, clientId, symbol), FindOrder(orders, e.orderId).value.side, e)
            else GroupFor(orders, pre, clientId, symbol))
      && (Filled(orders, post, clientId, symbol) <==> Filled(orders, pre, clientId, symbol) || InGroup(orders, clientId, symbol, e))
  {
    var e := executions[i];
    var pre := executions[..i];
    var post := executions[..i + 1];
    assert Init(post) == pre;
    assert Last(post) == e;
    if InGroup(orders, clientId, symbol, e) {
      var side := FindOrder(orders, e.orderId).value.side;
      assert NetQty(orders, post, clientId, symbol) == NetQty(orders, pre, clientId, symbol) + SignedQty(side, e.execQty);
      assert QtySum(orders, post, clientId, symbol) == QtySum(orders, pre, clientId, symbol) + e.execQty;
      assert NotionalSum(orders, post, clientId, symbol) == NotionalSum(orders, pre, clientId, symbol) + Notional(e);
    } else {
      assert NetQty(orders, post, clientId, symbol) == NetQty(orders, pre, clientId, symbol);
      assert QtySum(orders, post, clientId, symbol) == QtySum(orders, pre, clientId, symbol);
      assert NotionalSum(orders, post, clientId, symbol) == NotionalSum(orders, pre, clientId, symbol);
    }
  }

  /** A symbol without executions has all sums 0. */
  lemma {:induction false} UnfilledIsEmpty(orders: seq<Order>, executions: seq<Execution>, clientId: string, symbol: string)
    requires !Filled(orders, executions, clientId, symbol)
    ensures GroupFor(orders, executions, clientId, symbol) == Empty(symbol)
    decreases |executions|
  {
    if executions != [] {
      UnfilledIsEmpty(orders, Init(executions), clientId, symbol);
    }
  }

  /** The index of the group for `symbol`, or |groups| when there is none. */
  function IndexOf(groups: seq<Group>, symbol: string): (k: nat)
    ensures k <= |groups|
    ensures k < |groups| ==> groups[k].symbol == symbol
    ensures k == |groups| ==> forall j :: 0 <= j < |groups| ==> groups[j].symbol != symbol
  {
    if groups == [] then 0
    else if groups[0].symbol == symbol then 0
    else 1 + IndexOf(groups[1..], symbol)
  }

  /** The accumulated rows summarise these executions: one row per filled
      symbol, each holding that symbol's sums. */
  ghost predicate Summarises(orders: seq<Order>, executions: seq<Execution>, clientId: string, groups: seq<Group>) {
    && DistinctSymbols(groups)
    && (forall k :: 0 <= k < |groups| ==>
          Filled(orders, executions, clientId, groups[k].symbol)
          && groups[k] == GroupFor(orders, executions, clientId, groups[k].symbol))
    && (forall symbol :: Filled(orders, executions, clientId, symbol) ==>
          exists k :: 0 <= k < |groups| && groups[k].symbol == symbol)
  }

  /** An execution that joins none of the client's orders changes nothing. */
  lemma SkipSummarises(orders: seq<Order>, executions: seq<Execution>, i: nat, clientId: string, groups: seq<Group>)
    requires i < |executions| && Summarises(orders, executions[..i], clientId, groups)
    requires var o := FindOrder(orders, executions[i].orderId); !(o.Some? && o.value.clientId == clientId)
    ensures Summarises(orders, executions[..i + 1], clientId, groups)
  {
    var pre, post := executions[..i], executions[..i + 1];
    forall symbol
      ensures GroupFor(orders, post, clientId, symbol) == GroupFor(orders, pre, clientId, symbol)
      ensures Filled(orders, post, clientId, symbol) == Filled(orders, pre, clientId, symbol)
    {
      Extend(orders, executions, i, clientId, symbol);
    }
    forall s | Filled(orders, post, clientId, s)
      ensures exists j :: 0 <= j < |groups| && groups[j].symbol == s
    {
      assert Filled(orders, pre, clientId, s);
    }
  }

  /** Folding an execution into the existing row of its symbol. */
  lemma UpdateSummarises(orders: seq<Order>, executions: seq<Execution>, i: nat, clientId: string,
                         groups: seq<Group>, k: nat)
    requires i < |executions| && Summarises(orders, executions[..i], clientId, groups)
    requires var o := FindOrder(orders, executions[i].orderId); o.Some? && o.value.clientId == clientId
    requires k < |groups| && groups[k].symbol == FindOrder(orders, executions[i].orderId).value.symbol
    ensures Summarises(orders, executions[..i + 1], clientId,
                       groups[k := Add(groups[k], FindOrder(orders, executions[i].orderId).value.side, executions[i])])
  {
    var e := executions[i];
    var next := groups[k := Add(groups[k], FindOrder(orders, e.orderId).value.side, e)];
    forall symbol
      ensures GroupFor(orders, executions[..i + 1], clientId, symbol) ==
           (if InGroup(orders, clientId, symbol, e)
            then Add(GroupFor(orders, executions[..i], clientId, symbol), FindOrder(orders, e.orderId).value.side, e)
            else GroupFor(orders, executions[..i], clientId, symbol))
      ensures Filled(orders, executions[..i + 1], clientId, symbol) <==>
           Filled(orders, executions[..i], clientId, symbol) || InGroup(orders, clientId, symbol, e)
    {
      Extend(orders, executions, i, clientId, symbol);
    }
    var post := executions[..i + 1];
    forall s | Filled(orders, post, clientId, s)
      ensures exists j :: 0 <= j < |next| && next[j].symbol == s
    {
      if s == groups[k].symbol {
        assert next[k].symbol == s;
      } else {
        assert !InGroup(orders, clientId, s, e);
        assert Filled(orders, executions[..i], clientId, s);
        var j :| 0 <= j < |groups| && groups[j].symbol == s;
        assert next[j].symbol == s;
      }
    }
  }

  /** Starting a new row for an execution whose symbol has none yet. */
  lemma AppendSummarises(orders: seq<Order>, executions: seq<Execution>, i: nat, clientId: string,
                         groups: seq<Group>)
    requires i < |executions| && Summarises(orders, executions[..i], clientId, groups)
    requires var o := FindOrder(orders, executions[i].orderId); o.Some? && o.value.clientId == clientId
    requires forall j :: 0 <= j < |groups| ==> groups[j].symbol != FindOrder(orders, executions[i].orderId).value.symbol
    ensures var o := FindOrder(orders, executions[i].orderId).value;
      Summarises(orders, executions[..i + 1], clientId, groups + [Add(Empty(o.symbol), o.side, executions[i])])
  {
    var e := executions[i];
    var o := FindOrder(orders, e.orderId).value;
    var next := groups + [Add(Empty(o.symbol), o.side, e)];
    assert !Filled(orders, executions[..i], clientId, o.symbol);
    UnfilledIsEmpty(orders, executions[..i], clientId, o.symbol);
    forall symbol
      ensures GroupFor(orders, executions[..i + 1], clientId, symbol) ==
           (if InGroup(orders, clientId, symbol, e)
            then Add(GroupFor(orders, executions[..i], clientId, symbol), o.side, e)
            else GroupFor(orders, executions[..i], clientId, symbol))
      ensures Filled(orders, executions[..i + 1], clientId, symbol) <==>
           Filled(orders, executions[..i], clientId, symbol) || InGroup(orders, clientId, symbol, e)
    {
      Extend(orders, executions, i, clientId, symbol);
    }
    var pre, post := executions[..i], executions[..i + 1];
    forall s | Filled(orders, post, clientId, s)
      ensures exists j :: 0 <= j < |next| && next[j].symbol == s
    {
      if Filled(orders, pre, clientId, s) {
        var j :| 0 <= j < |groups| && groups[j].symbol == s;
        assert next[j].symbol == s;
      } else {
        assert next[|groups|].symbol == s;
      }
    }
  }

  /** The grouped query: one accumulated row per symbol that has at least one
      execution on the client's orders, summed over the client's executions. */
  method GroupRows(orders: seq<Order>, executions: seq<Execution>, clientId: string)
    returns (groups: seq<Group>)
    ensures DistinctSymbols(groups)
    ensures forall k :: 0 <= k < |groups| ==>
      Filled(orders, executions, clientId, groups[k].symbol)
      && groups[k] == GroupFor(orders, executions, clientId, groups[k].symbol)
    ensures forall symbol :: Filled(orders, executions, clientId, symbol) ==>
      exists k :: 0 <= k < |groups| && groups[k].symbol == symbol
  {
    groups := [];
    var i := 0;
    while i < |executions|
      invariant 0 <= i <= |executions|
      invariant Summarises(orders, executions[..i], clientId, groups)
    {
      var e := executions[i];
      var o := FindOrder(orders, e.orderId);
      if o.Some? && o.value.clientId == clientId {
        var k := IndexOf(groups, o.value.symbol);
        if k < |groups| {
          UpdateSummarises(orders, executions, i, clientId, groups, k);
          groups := groups[k := Add(groups[k], o.value.side, e)];
        } else {
          AppendSummarises(orders, executions, i, clientId, groups);
          groups := groups + [Add(Empty(o.value.symbol), o.value.side, e)];
        }
      } else {
        SkipSummarises(orders, executions, i, clientId, groups);
      }
      i := i + 1;
    }
    assert executions[..i] == executions;
  }

  /** The result loop: one position per group row, with the nullable
      aggregates defaulted to 0 and the unrealized P&L fixed at 0. */
  method Assemble(clientId: string, groups: seq<Group>) returns (positions: seq<Position>)
    ensures |positions| == |groups|
    ensures forall k :: 0 <= k < |groups| ==>
      positions[k] == Position(clientId, groups[k].symbol, groups[k].netQty, ReportedAvgPx(groups[k]), 0.0)
  {
    positions := [];
    for i := 0 to |groups|
      invariant |positions| == i
      invariant forall k :: 0 <= k < i ==>
        positions[k] == Position(clientId, groups[k].symbol, groups[k].netQty, ReportedAvgPx(groups[k]), 0.0)
    {
      var r := groups[i];
      var netQty := r.netQty;
      var avgPx := OrZero(Divide(r.notionalSum, NullIf(r.qtySum, 0.0)));
      positions := positions + [Position(clientId, r.symbol, netQty, avgPx, 0.0)];
    }
  }

  /** `by_client`: the client's positions, one per symbol with fills. */
  method ByClient(orders: seq<Order>, executions: seq<Execution>, clientId: string)
    returns (positions: seq<Position>)
    ensures forall k :: 0 <= k < |positions| ==>
      && positions[k].clientId == clientId
      && positions[k].unrealizedPnl == 0.0
      && Filled(orders, executions, clientId, positions[k].symbol)
      && positions[k].netQty == NetQty(orders, executions, clientId, positions[k].symbol)
      && positions[k].avgPx == AvgPx(orders, executions, clientId, positions[k].symbol)
    ensures forall symbol :: Filled(orders, executions, clientId, symbol) ==>
      exists k :: 0 <= k < |positions| && positions[k].symbol == symbol
    ensures forall i, j :: 0 <= i < j < |positions| ==> positions[i].symbol != positions[j].symbol
  {
    var groups := GroupRows(orders, executions, clientId);
    positions := Assemble(clientId, groups);
    forall symbol | Filled(orders, executions, clientId, symbol)
      ensures exists k :: 0 <= k < |positions| && positions[k].symbol == symbol
    {
      var k :| 0 <= k < |groups| && groups[k].symbol == symbol;
      assert positions[k].symbol == symbol;
    }
  }
  /** sum(exec_qty) over the group's executions on BUY orders (buy) or on
      orders of every other side (!buy). */
  function SideQty(orders: seq<Order>, executions: seq<Execution>, clientId: string, symbol: string, buy: bool): real
    decreases |executions|
  {
    if executions == [] then 0.0
    else
      var e := Last(executions);
      SideQty(orders, Init(executions), clientId, symbol, buy)
      + (if InGroup(orders, clientId, symbol, e) && (FindOrder(orders, e.orderId).value.side == "BUY") == buy
         then e.execQty else 0.0)
  }

  /** The net quantity is the BUY volume minus the volume of every other side. */
  lemma {:induction false} NetQtySplit(orders: seq<Order>, executions: seq<Execution>, clientId: string, symbol: string)
    ensures NetQty(orders, executions, clientId, symbol)
         == SideQty(orders, executions, clientId, symbol, true) - SideQty(orders, executions, clientId, symbol, false)
    decreases |executions|
  {
    if executions != [] {
      NetQtySplit(orders, Init(executions), clientId, symbol);
    }
  }

  /** A symbol is filled exactly when some execution joins one of the
      client's orders on it. */
  lemma {:induction false} FilledIff(orders: seq<Order>, executions: seq<Execution>, clientId: string, symbol: string)
    ensures Filled(orders, executions, clientId, symbol) <==>
            exists k :: 0 <= k < |executions| && InGroup(orders, clientId, symbol, executions[k])
    decreases |executions|
  {
    if executions != [] {
      var init := Init(executions);
      FilledIff(orders, init, clientId, symbol);
      if Filled(orders, init, clientId, symbol) {
        var k :| 0 <= k < |init| && InGroup(orders, clientId, symbol, init[k]);
        assert executions[k] == init[k];
      }
      if exists k :: 0 <= k < |executions| && InGroup(orders, clientId, symbol, executions[k]) {
        var k :| 0 <= k < |executions| && InGroup(orders, clientId, symbol, executions[k]);
        if k < |init| {
          assert init[k] == executions[k];
        }
      }
    }
  }

  /** An execution that joins no order of this client (a dangling foreign key,
      or another client's order) changes none of the client's groups. */
  lemma ForeignExecutionIgnored(orders: seq<Order>, executions: seq<Execution>, e: Execution,
                                clientId: string, symbol: string)
    requires var o := FindOrder(orders, e.orderId); o.None? || o.value.clientId != clientId
    ensures GroupFor(orders, executions + [e], clientId, symbol) == GroupFor(orders, executions, clientId, symbol)
    ensures Filled(orders, executions + [e], clientId, symbol) == Filled(orders, executions, clientId, symbol)
  {
    assert Init(executions + [e]) == executions;
  }

  /** A BUY of 10 at 100 and a SELL of 4 at 110 on one symbol give a net
      quantity of 6 and an average price of 1440/14. */
  lemma WorkedExample(buy: Order, sell: Order, fill1: Execution, fill2: Execution)
    requires buy.id != sell.id
    requires buy.clientId == "C1" && sell.clientId == "C1"
    requires buy.symbol == "EURUSD" && sell.symbol == "EURUSD"
    requires buy.side == "BUY" && sell.side == "SELL"
    requires fill1.orderId == buy.id && fill1.execQty == 10.0 && fill1.execPx == 100.0
    requires fill2.orderId == sell.id && fill2.execQty == 4.0 && fill2.execPx == 110.0
    ensures NetQty([buy, sell], [fill1, fill2], "C1", "EURUSD") == 6.0
    ensures AvgPx([buy, sell], [fill1, fill2], "C1", "EURUSD") == 1440.0 / 14.0
  {
    var orders, executions := [buy, sell], [fill1, fill2];
    assert FindOrder(orders, fill1.orderId) == Some(buy);
    assert FindOrder(orders, fill2.orderId) == Some(sell) by {
      assert orders[1..] == [sell];
    }
    assert InGroup(orders, "C1", "EURUSD", fill1) && InGroup(orders, "C1", "EURUSD", fill2);
    assert Init(executions) == [fill1] && Last(executions) == fill2;
    assert Init([fill1]) == [] && Last([fill1]) == fill1;
    assert NetQty(orders, [fill1], "C1", "EURUSD") == 10.0;
    assert QtySum(orders, [fill1], "C1", "EURUSD") == 10.0;
    assert NotionalSum(orders, [fill1], "C1", "EURUSD") == 1000.0;
    assert NetQty(orders, executions, "C1", "EURUSD") == 10.0 - 4.0;
    assert QtySum(orders, executions, "C1", "EURUSD") == 14.0;
    assert NotionalSum(orders, executions, "C1", "EURUSD") == 1000.0 + 440.0;
  }
}
