/** The risk-limit repository: a table of RiskLimit rows, created
    administratively and read by the order path. */
module RiskLimits {
  import opened Tables
  import opened Models

  /** One `.where(...)` clause of a query over the risk-limit table. */
  datatype Where = ClientIs(clientId: string) | SymbolIs(symbol: string) | SymbolIsNull

  /** SQL truth of a clause on a row; `symbol = s` is never true of a NULL symbol. */
  predicate Holds(w: Where, r: RiskLimit) {
    match w
    case ClientIs(c) => r.clientId == c
    case SymbolIs(s) => r.symbol == Some(s)
    case SymbolIsNull => r.symbol.None?
  }

  predicate SatisfiesAll(r: RiskLimit, ws: seq<Where>) {
    forall k :: 0 <= k < |ws| ==> Holds(ws[k], r)
  }

  /** Runs `select(RiskLimit).where(ws...)`: the rows meeting every clause,
      in table order. */
  function Select(rows: seq<RiskLimit>, ws: seq<Where>): (r: seq<RiskLimit>)
    ensures |r| <= |rows|
    ensures forall x :: x in r <==> x in rows && SatisfiesAll(x, ws)
  {
    if rows == [] then []
    else (if SatisfiesAll(rows[0], ws) then [rows[0]] else []) + Select(rows[1..], ws)
  }

  /** Selection distributes over concatenation of the table, so the result
      keeps the rows' table order. */
  lemma {:induction false} SelectAppend(a: seq<RiskLimit>, b: seq<RiskLimit>, ws: seq<Where>)
    ensures Select(a + b, ws) == Select(a, ws) + Select(b, ws)
  {
    if a == [] {
      assert a + b == b;
    } else {
      assert (a + b)[1..] == a[1..] + b;
      SelectAppend(a[1..], b, ws);
    }
  }

  /** A query without clauses returns the whole table. */
  lemma {:induction false} SelectAll(rows: seq<RiskLimit>)
    ensures Select(rows, []) == rows
  {
    if rows != [] {
      SelectAll(rows[1..]);
    }
  }

  /** `.first()` of a query is the earliest row in table order that meets it. */
  lemma {:induction false} SelectFirst(rows: seq<RiskLimit>, ws: seq<Where>, k: nat)
    requires k < |rows| && SatisfiesAll(rows[k], ws)
    requires forall j :: 0 <= j < k ==> !SatisfiesAll(rows[j], ws)
    ensures First(Select(rows, ws)) == Some(rows[k])
  {
    if k > 0 {
      SelectFirst(rows[1..], ws, k - 1);
    }
  }

  /** `.first()` of a query finds nothing exactly when no row meets it. */
  lemma SelectNone(rows: seq<RiskLimit>, ws: seq<Where>)
    ensures First(Select(rows, ws)).None? <==> forall k :: 0 <= k < |rows| ==> !SatisfiesAll(rows[k], ws)
  {
    var r := Select(rows, ws);
    if r != [] {
      assert r[0] in r;
    } else {
      forall k | 0 <= k < |rows| ensures !SatisfiesAll(rows[k], ws) {
        assert rows[k] in rows;
      }
    }
  }

  /** The list filters: each given filter must hold, an absent one imposes nothing. */
  predicate RowMatches(r: RiskLimit, clientId: Option<string>, symbol: Option<string>) {
    && (clientId.Some? ==> r.clientId == clientId.value)
    && (symbol.Some? ==> r.symbol == Some(symbol.value))
  }

  /** The clauses `list` adds to its statement, one per given filter. */
  function ListQuery(clientId: Option<string>, symbol: Option<string>): (ws: seq<Where>)
    ensures forall r :: SatisfiesAll(r, ws) <==> RowMatches(r, clientId, symbol)
  {
    var ws := (if clientId.Some? then [ClientIs(clientId.value)] else [])
              + (if symbol.Some? then [SymbolIs(symbol.value)] else []);
    assert forall r :: RowMatches(r, clientId, symbol) ==> SatisfiesAll(r, ws) by {
      forall r | RowMatches(r, clientId, symbol) ensures SatisfiesAll(r, ws) {
        forall k | 0 <= k < |ws| ensures Holds(ws[k], r) {}
      }
    }
    assert forall r :: !RowMatches(r, clientId, symbol) ==> !SatisfiesAll(r, ws) by {
      forall r | !RowMatches(r, clientId, symbol) ensures !SatisfiesAll(r, ws) {
        if clientId.Some? && r.clientId != clientId.value {
          assert !Holds(ws[0], r);
        } else {
          assert !Holds(ws[|ws| - 1], r);
        }
      }
    }
    ws
  }

  /** A row specific to (client, symbol). */
  predicate Specific(r: RiskLimit, clientId: string, symbol: string) {
    r.clientId == clientId && r.symbol == Some(symbol)
  }

  /** A client-general row (symbol IS NULL). */
  predicate General(r: RiskLimit, clientId: string) {
    r.clientId == clientId && r.symbol.None?
  }

  lemma SpecificQuery(r: RiskLimit, clientId: string, symbol: string)
    ensures SatisfiesAll(r, [ClientIs(clientId), SymbolIs(symbol)]) <==> Specific(r, clientId, symbol)
  {
    var ws := [ClientIs(clientId), SymbolIs(symbol)];
    if Specific(r, clientId, symbol) {
      forall k | 0 <= k < |ws| ensures Holds(ws[k], r) {}
    } else {
      assert !Holds(ws[0], r) || !Holds(ws[1], r);
    }
  }

  lemma GeneralQuery(r: RiskLimit, clientId: string)
    ensures SatisfiesAll(r, [ClientIs(clientId), SymbolIsNull]) <==> General(r, clientId)
  {
    var ws := [ClientIs(clientId), SymbolIsNull];
    if General(r, clientId) {
      forall k | 0 <= k < |ws| ensures Holds(ws[k], r) {}
    } else {
      assert !Holds(ws[0], r) || !Holds(ws[1], r);
    }
  }

  /** Primary-key lookup (`db.get`). */
  function Get(rows: seq<RiskLimit>, id: Id): (r: Option<RiskLimit>)
    ensures r.Some? ==> r.value in rows && r.value.id == id
    ensures r.None? <==> forall k :: 0 <= k < |rows| ==> rows[k].id != id
  {
    if rows == [] then None
    else if rows[0].id == id then Some(rows[0])
    else Get(rows[1..], id)
  }

  lemma {:induction false} GetAppend(rows: seq<RiskLimit>, item: RiskLimit, id: Id)
    ensures Get(rows + [item], id) == if Get(rows, id).Some? then Get(rows, id)
                                      else if item.id == id then Some(item) else None
  {
    if rows == [] {
      assert rows + [item] == [item];
    } else {
      assert (rows + [item])[1..] == rows[1..] + [item];
      GetAppend(rows[1..], item, id);
    }
  }

  /** The limit governing an order for (client, symbol): the first
      symbol-specific row, failing that the first client-general row. */
  function ByClientSymbol(rows: seq<RiskLimit>, clientId: string, symbol: string): (r: Option<RiskLimit>)
    ensures r.Some? ==> r.value in rows && r.value.clientId == clientId
    ensures r.Some? ==> Specific(r.value, clientId, symbol) || General(r.value, clientId)
  {
    var specific := First(Select(rows, [ClientIs(clientId), SymbolIs(symbol)]));
    if specific.Some? then
      SpecificQuery(specific.value, clientId, symbol);
      specific
    else
      var general := First(Select(rows, [ClientIs(clientId), SymbolIsNull]));
      if general.Some? then GeneralQuery(general.value, clientId); general
      else general
  }

  /** The earliest symbol-specific row wins, whatever general rows exist. */
  lemma SpecificWins(rows: seq<RiskLimit>, clientId: string, symbol: string, k: nat)
    requires k < |rows| && Specific(rows[k], clientId, symbol)
    requires forall j :: 0 <= j < k ==> !Specific(rows[j], clientId, symbol)
    ensures ByClientSymbol(rows, clientId, symbol) == Some(rows[k])
  {
    forall j | 0 <= j <= k ensures SatisfiesAll(rows[j], [ClientIs(clientId), SymbolIs(symbol)]) <==> Specific(rows[j], clientId, symbol) {
      SpecificQuery(rows[j], clientId, symbol);
    }
    SelectFirst(rows, [ClientIs(clientId), SymbolIs(symbol)], k);
  }

  /** Without a specific row, the earliest client-general row is used. */
  lemma GeneralFallback(rows: seq<RiskLimit>, clientId: string, symbol: string, k: nat)
    requires forall j :: 0 <= j < |rows| ==> !Specific(rows[j], clientId, symbol)
    requires k < |rows| && General(rows[k], clientId)
    requires forall j :: 0 <= j < k ==> !General(rows[j], clientId)
    ensures ByClientSymbol(rows, clientId, symbol) == Some(rows[k])
  {
    forall j | 0 <= j < |rows| ensures !SatisfiesAll(rows[j], [ClientIs(clientId), SymbolIs(symbol)]) {
      SpecificQuery(rows[j], clientId, symbol);
    }
    SelectNone(rows, [ClientIs(clientId), SymbolIs(symbol)]);
    forall j | 0 <= j <= k ensures SatisfiesAll(rows[j], [ClientIs(clientId), SymbolIsNull]) <==> General(rows[j], clientId) {
      GeneralQuery(rows[j], clientId);
    }
    SelectFirst(rows, [ClientIs(clientId), SymbolIsNull], k);
  }

  /** No limit is found exactly when the client has neither kind of row. */
  lemma NoLimitFound(rows: seq<RiskLimit>, clientId: string, symbol: string)
    ensures ByClientSymbol(rows, clientId, symbol).None? <==>
            forall j :: 0 <= j < |rows| ==> !Specific(rows[j], clientId, symbol) && !General(rows[j], clientId)
  {
    forall j | 0 <= j < |rows|
      ensures SatisfiesAll(rows[j], [ClientIs(clientId), SymbolIs(symbol)]) <==> Specific(rows[j], clientId, symbol)
      ensures SatisfiesAll(rows[j], [ClientIs(clientId), SymbolIsNull]) <==> General(rows[j], clientId)
    {
      SpecificQuery(rows[j], clientId, symbol);
      GeneralQuery(rows[j], clientId);
    }
    SelectNone(rows, [ClientIs(clientId), SymbolIs(symbol)]);
    SelectNone(rows, [ClientIs(clientId), SymbolIsNull]);
  }

  /** The repository over the session's risk-limit table. */
  class RiskLimitsRepository {
    var rows: seq<RiskLimit>
    var nextId: Id

    /** Every row id was handed out by the id supply, so ids are unique. */
    ghost predicate Valid()
      reads this
    {
      && (forall k :: 0 <= k < |rows| ==> rows[k].id < nextId)
      && (forall i, j :: 0 <= i < j < |rows| ==> rows[i].id != rows[j].id)
    }

    /** A repository over the session's risk-limit table as it stands; the id
        supply is above every stored id. */
    constructor (rows0: seq<RiskLimit>, nextId0: Id)
      requires forall k :: 0 <= k < |rows0| ==> rows0[k].id < nextId0
      requires forall i, j :: 0 <= i < j < |rows0| ==> rows0[i].id != rows0[j].id
      ensures Valid() && rows == rows0 && nextId == nextId0
    {
      rows := rows0;
      nextId := nextId0;
    }

    /** Adds one row built from the given columns (`RiskLimit(**data)`),
        with a fresh id; the existing rows stay as they were. */
    method Create(clientId: string, maxNotional: real, maxOrderSize: real, tradingHours: string,
                  symbol: Option<string> := None, blocked: bool := false) returns (item: RiskLimit)
      requires Valid()
      modifies this
      ensures Valid()
      ensures item == RiskLimit(old(nextId), clientId, symbol, maxNotional, maxOrderSize, tradingHours, blocked)
      ensures rows == old(rows) + [item]
      ensures Get(rows, item.id) == Some(item)
      ensures forall id :: Get(old(rows), id).Some? ==> Get(rows, id) == Get(old(rows), id)
    {
      item := RiskLimit(nextId, clientId, symbol, maxNotional, maxOrderSize, tradingHours, blocked);
      GetAppend(rows, item, item.id);
      forall id | Get(rows, id).Some? ensures Get(rows + [item], id) == Get(rows, id) {
        GetAppend(rows, item, id);
      }
      rows := rows + [item];
      nextId := nextId + 1;
    }

    /** `list(client_id, symbol)`: the query gains one clause per given
        filter, then returns every matching row in table order. */
    method List(clientId: Option<string> := None, symbol: Option<string> := None)
      returns (result: seq<RiskLimit>)
      ensures forall r :: r in result <==> r in rows && RowMatches(r, clientId, symbol)
      ensures clientId.None? && symbol.None? ==> result == rows
      ensures result == Select(rows, ListQuery(clientId, symbol))
    {
      var stmt: seq<Where> := [];
      if clientId.Some? {
        stmt := stmt + [ClientIs(clientId.value)];
      }
      if symbol.Some? {
        stmt := stmt + [SymbolIs(symbol.value)];
      }
      assert stmt == ListQuery(clientId, symbol);
      result := Select(rows, stmt);
      if stmt == [] {
        SelectAll(rows);
      }
    }
  }
}
