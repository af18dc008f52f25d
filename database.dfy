/**
  The portfolio ledger (`whatsapp-bot/database.py`): one append-only table of
  transactions, in memory instead of SQLite. `Ledger.InitDb` creates the
  table if it does not exist, `Ledger.AddTransaction` inserts a row with a
  fresh autoincrement id, `Ledger.GetTransactions` lists rows newest first,
  and `Ledger.GetPortfolioSummary` computes the holdings with the semantics of
  the `GROUP BY crypto_symbol HAVING net_quantity > 0 ORDER BY crypto_symbol`
  query. `created_at` is a clock reading the caller supplies.
 */
module Database {
  import opened Common
  import opened Text

  /** The record the tools hand to the store. */
  datatype Transaction = Transaction(
    cryptoSymbol: string,
    quantity: real,
    priceUsd: real,
    exchange: string,
    transactionType: string)

  /** A row of the `transactions` table. */
  datatype Row = Row(
    id: nat,
    symbol: string,
    quantity: real,
    price: real,
    exchange: string,
    ttype: string,
    createdAt: nat)

  /** One entry of the summary. */
  datatype Holding = Holding(symbol: string, netQuantity: real, avgPrice: real, transactionCount: nat)

  datatype Summary = Summary(holdings: seq<Holding>, totalHoldings: nat)

  /** The storage failure the model keeps: using the table before it exists. */
  datatype DbError = NoSuchTable

  function ErrorMessage(e: DbError): string {
    "no such table: transactions"
  }

  /* ---------------------------------------------------------------------- */
  /* Listing: filter and order                                               */
  /* ---------------------------------------------------------------------- */

  /** The `WHERE` key: a non-empty symbol filters on its lower-cased form;
      `None` and the empty string select every row. */
  function FilterKey(symbol: Option<string>): (key: Option<string>)
    ensures key.None? <==> symbol.None? || symbol.value == []
    ensures key.Some? ==> key.value == Lower(symbol.value) && IsLowerCase(key.value)
  {
    if symbol.Some? && symbol.value != [] then Some(Lower(symbol.value)) else None
  }

  predicate Selected(key: Option<string>, r: Row) {
    key.None? || r.symbol == key.value
  }

  /** The rows the `WHERE` clause selects, in table order. */
  function Matching(rows: seq<Row>, key: Option<string>): (r: seq<Row>)
    ensures forall x :: x in r <==> x in rows && Selected(key, x)
    ensures key.None? ==> r == rows
  {
    if rows == [] then []
    else if Selected(key, rows[0]) then [rows[0]] + Matching(rows[1..], key)
    else Matching(rows[1..], key)
  }

  /** `ORDER BY created_at DESC`: creation times never increase along the list.
      Rows with equal times may come in any order. */
  predicate NewestFirst(rs: seq<Row>) {
    forall i, j :: 0 <= i < j < |rs| ==> rs[i].createdAt >= rs[j].createdAt
  }

  /** A row no older than every row of a newest-first list can go in front. */
  lemma ConsNewestFirst(h: Row, rest: seq<Row>)
    requires NewestFirst(rest)
    requires forall k :: 0 <= k < |rest| ==> rest[k].createdAt <= h.createdAt
    ensures NewestFirst([h] + rest)
  {
    forall i, j | 0 <= i < j < |[h] + rest|
      ensures ([h] + rest)[i].createdAt >= ([h] + rest)[j].createdAt
    {
      if i > 0 {
        assert ([h] + rest)[i] == rest[i - 1];
      }
      assert ([h] + rest)[j] == rest[j - 1];
    }
  }

  function InsertNewestFirst(x: Row, rs: seq<Row>): (r: seq<Row>)
    requires NewestFirst(rs)
    ensures NewestFirst(r)
    ensures multiset(r) == multiset(rs) + multiset{x}
    ensures forall k :: 0 <= k < |r| ==> r[k] == x || r[k] in rs
    decreases |rs|
  {
    if rs == [] || x.createdAt >= rs[0].createdAt then
      ConsNewestFirst(x, rs);
      [x] + rs
    else
      assert rs == [rs[0]] + rs[1..];
      var rest := InsertNewestFirst(x, rs[1..]);
      assert forall k :: 0 <= k < |rest| ==> rest[k].createdAt <= rs[0].createdAt by {
        forall k | 0 <= k < |rest| ensures rest[k].createdAt <= rs[0].createdAt {
          assert rest[k] == x || rest[k] in rs[1..];
        }
      }
      ConsNewestFirst(rs[0], rest);
      [rs[0]] + rest
  }

  /** An ordering of `rs` newest first. */
  function SortNewestFirst(rs: seq<Row>): (r: seq<Row>)
    ensures NewestFirst(r)
    ensures multiset(r) == multiset(rs)
    decreases |rs|
  {
    if rs == [] then []
    else
      assert rs == [rs[0]] + rs[1..];
      InsertNewestFirst(rs[0], SortNewestFirst(rs[1..]))
  }

  /* ---------------------------------------------------------------------- */
  /* Aggregation                                                             */
  /* ---------------------------------------------------------------------- */

  /** `CASE WHEN transaction_type = 'buy' THEN quantity ELSE -quantity END`:
      the comparison is exact, so every other type counts as a sale. */
  function SignedQuantity(r: Row): real {
    if r.ttype == "buy" then r.quantity else -r.quantity
  }

  /** `SUM(...)` of the signed quantity over the symbol's group. */
  function NetQuantity(rows: seq<Row>, symbol: string): (net: real)
    ensures Count(rows, symbol) == 0 ==> net == 0.0
    decreases |rows|
  {
    if rows == [] then 0.0
    else (if rows[0].symbol == symbol then SignedQuantity(rows[0]) else 0.0) + NetQuantity(rows[1..], symbol)
  }

  /** Total quantity of the symbol's rows whose type is exactly "buy". */
  function Bought(rows: seq<Row>, symbol: string): real {
    if rows == [] then 0.0
    else (if rows[0].symbol == symbol && rows[0].ttype == "buy" then rows[0].quantity else 0.0)
         + Bought(rows[1..], symbol)
  }

  /** Total quantity of the symbol's rows of any other type. */
  function Sold(rows: seq<Row>, symbol: string): real {
    if rows == [] then 0.0
    else (if rows[0].symbol == symbol && rows[0].ttype != "buy" then rows[0].quantity else 0.0)
         + Sold(rows[1..], symbol)
  }

  /** Sum of the unit prices of the symbol's rows, whatever their side. */
  function PriceTotal(rows: seq<Row>, symbol: string): real {
    if rows == [] then 0.0
    else (if rows[0].symbol == symbol then rows[0].price else 0.0) + PriceTotal(rows[1..], symbol)
  }

  /** `COUNT(*)` over the symbol's group. */
  function Count(rows: seq<Row>, symbol: string): (n: nat)
    ensures n > 0 <==> exists i :: 0 <= i < |rows| && rows[i].symbol == symbol
    ensures n <= |rows|
  {
    if rows == [] then 0
    else
      assert forall i :: 1 <= i < |rows| ==> rows[i] == rows[1..][i - 1];
      (if rows[0].symbol == symbol then 1 else 0) + Count(rows[1..], symbol)
  }

  /** `AVG(price_usd_at_transaction)`: the unweighted mean over the group. */
  function AvgPrice(rows: seq<Row>, symbol: string): (avg: real)
    requires Count(rows, symbol) > 0
    ensures avg * (Count(rows, symbol) as real) == PriceTotal(rows, symbol)
  {
    PriceTotal(rows, symbol) / (Count(rows, symbol) as real)
  }

  /** The net quantity is what was bought less what was sold under any other type. */
  lemma {:induction false} NetIsBoughtMinusSold(rows: seq<Row>, symbol: string)
    ensures NetQuantity(rows, symbol) == Bought(rows, symbol) - Sold(rows, symbol)
    decreases |rows|
  {
    if rows != [] {
      NetIsBoughtMinusSold(rows[1..], symbol);
    }
  }

  /** Strictly ascending in the text order, hence without repetition. */
  predicate Ascending(xs: seq<string>) {
    forall i, j :: 0 <= i < j < |xs| ==> LexLess(xs[i], xs[j])
  }

  function InsertSymbol(s: string, xs: seq<string>): (r: seq<string>)
    requires Ascending(xs)
    ensures Ascending(r)
    ensures forall t :: t in r <==> t == s || t in xs
    decreases |xs|
  {
    if xs == [] then [s]
    else if s == xs[0] then xs
    else if LexLess(s, xs[0]) then
      assert forall j :: 0 < j < |xs| ==> LexLess(xs[0], xs[j]);
      assert forall j :: 0 < j < |xs| ==> LexLess(s, xs[j]) by {
        forall j | 0 < j < |xs| ensures LexLess(s, xs[j]) {
          LexLessTransitive(s, xs[0], xs[j]);
        }
      }
      [s] + xs
    else
      LexLessTotal(s, xs[0]);
      assert xs == [xs[0]] + xs[1..];
      var rest := InsertSymbol(s, xs[1..]);
      assert forall k :: 0 <= k < |rest| ==> LexLess(xs[0], rest[k]) by {
        forall k | 0 <= k < |rest| ensures LexLess(xs[0], rest[k]) {
          assert rest[k] in rest;
        }
      }
      [xs[0]] + rest
  }

  /** The distinct symbols of the table in ascending order: the groups of
      `GROUP BY crypto_symbol` as `ORDER BY crypto_symbol` lists them. */
  function GroupSymbols(rows: seq<Row>): (r: seq<string>)
    ensures Ascending(r)
    ensures forall s :: s in r <==> Count(rows, s) > 0
    decreases |rows|
  {
    if rows == [] then []
    else
      var rest := GroupSymbols(rows[1..]);
      assert forall s :: Count(rows, s) > 0 <==> s == rows[0].symbol || Count(rows[1..], s) > 0;
      InsertSymbol(rows[0].symbol, rest)
  }

  function HoldingSymbols(hs: seq<Holding>): (r: seq<string>)
    ensures |r| == |hs|
    ensures forall i :: 0 <= i < |hs| ==> r[i] == hs[i].symbol
  {
    if hs == [] then [] else [hs[0].symbol] + HoldingSymbols(hs[1..])
  }

  /** For each group symbol in turn, its aggregate row if `HAVING net_quantity > 0`
      lets it through. */
  function HoldingsOver(rows: seq<Row>, symbols: seq<string>): (r: seq<Holding>)
    requires forall s :: s in symbols ==> Count(rows, s) > 0
    ensures forall i :: 0 <= i < |r| ==> r[i].symbol in symbols && NetQuantity(rows, r[i].symbol) > 0.0
    ensures forall i :: 0 <= i < |r| ==>
      r[i] == Holding(r[i].symbol, NetQuantity(rows, r[i].symbol), AvgPrice(rows, r[i].symbol), Count(rows, r[i].symbol))
    decreases |symbols|
  {
    if symbols == [] then []
    else
      var s := symbols[0];
      var rest := HoldingsOver(rows, symbols[1..]);
      if NetQuantity(rows, s) > 0.0 then
        [Holding(s, NetQuantity(rows, s), AvgPrice(rows, s), Count(rows, s))] + rest
      else rest
  }

  /** A symbol is held exactly when it is one of the groups and its net
      quantity is positive. */
  lemma {:induction false} HoldingsOverMembers(rows: seq<Row>, symbols: seq<string>, s: string)
    requires forall t :: t in symbols ==> Count(rows, t) > 0
    ensures s in HoldingSymbols(HoldingsOver(rows, symbols)) <==> s in symbols && NetQuantity(rows, s) > 0.0
    decreases |symbols|
  {
    if symbols != [] {
      HoldingsOverMembers(rows, symbols[1..], s);
      var t := symbols[0];
      var rest := HoldingsOver(rows, symbols[1..]);
      if NetQuantity(rows, t) > 0.0 {
        var h := Holding(t, NetQuantity(rows, t), AvgPrice(rows, t), Count(rows, t));
        assert HoldingsOver(rows, symbols) == [h] + rest;
        assert HoldingSymbols([h] + rest) == [t] + HoldingSymbols(rest);
      }
    }
  }

  /** A symbol below every symbol of an ascending list can go in front. */
  lemma ConsAscending(t: string, xs: seq<string>)
    requires Ascending(xs)
    requires forall k :: 0 <= k < |xs| ==> LexLess(t, xs[k])
    ensures Ascending([t] + xs)
  {
    forall i, j | 0 <= i < j < |[t] + xs| ensures LexLess(([t] + xs)[i], ([t] + xs)[j]) {
      if i > 0 {
        assert ([t] + xs)[i] == xs[i - 1];
      }
      assert ([t] + xs)[j] == xs[j - 1];
    }
  }

  /** Filtering an ascending list of groups keeps it ascending. */
  lemma {:induction false} HoldingsOverAscending(rows: seq<Row>, symbols: seq<string>)
    requires forall t :: t in symbols ==> Count(rows, t) > 0
    requires Ascending(symbols)
    ensures Ascending(HoldingSymbols(HoldingsOver(rows, symbols)))
    decreases |symbols|
  {
    if symbols != [] {
      var t := symbols[0];
      var tail := symbols[1..];
      assert Ascending(tail) by {
        forall i, j | 0 <= i < j < |tail| ensures LexLess(tail[i], tail[j]) {
          assert tail[i] == symbols[i + 1] && tail[j] == symbols[j + 1];
        }
      }
      HoldingsOverAscending(rows, tail);
      var rest := HoldingsOver(rows, tail);
      if NetQuantity(rows, t) > 0.0 {
        var h := Holding(t, NetQuantity(rows, t), AvgPrice(rows, t), Count(rows, t));
        var hs := HoldingSymbols(rest);
        assert HoldingsOver(rows, symbols) == [h] + rest;
        assert ([h] + rest)[1..] == rest;
        assert HoldingSymbols([h] + rest) == [t] + hs;
        forall k | 0 <= k < |hs| ensures LexLess(t, hs[k]) {
          assert hs[k] == rest[k].symbol && rest[k].symbol in tail;
          var j :| 0 <= j < |tail| && tail[j] == hs[k];
          assert symbols[j + 1] == hs[k];
        }
        ConsAscending(t, hs);
      }
    }
  }

  /** The result of the summary query, one element per result row. */
  function Holdings(rows: seq<Row>): (hs: seq<Holding>)
    ensures forall i :: 0 <= i < |hs| ==> Count(rows, hs[i].symbol) > 0 && NetQuantity(rows, hs[i].symbol) > 0.0
  {
    HoldingsOver(rows, GroupSymbols(rows))
  }

  /** What the summary query yields: a symbol is held exactly when it occurs
      in the table with a positive net quantity; holdings are strictly
      ascending by symbol, so no symbol appears twice; each carries the
      group's net quantity, unweighted average price and row count. */
  lemma HoldingsCharacterised(rows: seq<Row>)
    ensures forall s :: s in HoldingSymbols(Holdings(rows)) <==> Count(rows, s) > 0 && NetQuantity(rows, s) > 0.0
    ensures Ascending(HoldingSymbols(Holdings(rows)))
    ensures forall i :: 0 <= i < |Holdings(rows)| ==>
      var h := Holdings(rows)[i];
      && Count(rows, h.symbol) > 0
      && h.netQuantity == Bought(rows, h.symbol) - Sold(rows, h.symbol)
      && h.avgPrice == PriceTotal(rows, h.symbol) / (Count(rows, h.symbol) as real)
      && h.transactionCount == Count(rows, h.symbol)
  {
    var hs := Holdings(rows);
    forall s ensures s in HoldingSymbols(hs) <==> Count(rows, s) > 0 && NetQuantity(rows, s) > 0.0 {
      HoldingsOverMembers(rows, GroupSymbols(rows), s);
    }
    HoldingsOverAscending(rows, GroupSymbols(rows));
    forall i | 0 <= i < |hs|
      ensures hs[i].netQuantity == Bought(rows, hs[i].symbol) - Sold(rows, hs[i].symbol)
    {
      NetIsBoughtMinusSold(rows, hs[i].symbol);
    }
  }

  /** Two buys-and-sells on one symbol: buy 2 at 10, sell 0.5 at 12. */
  lemma SummaryExampleHeld()
    ensures var rows := [Row(1, "bitcoin", 2.0, 10.0, "binance", "buy", 0),
                         Row(2, "bitcoin", 0.5, 12.0, "binance", "sell", 1)];
      Holdings(rows) == [Holding("bitcoin", 1.5, 11.0, 2)]
  {
    var rows := [Row(1, "bitcoin", 2.0, 10.0, "binance", "buy", 0),
                 Row(2, "bitcoin", 0.5, 12.0, "binance", "sell", 1)];
    assert rows[1..][1..] == [];
    assert GroupSymbols(rows) == ["bitcoin"];
    assert NetQuantity(rows, "bitcoin") == 1.5;
    assert Count(rows, "bitcoin") == 2;
    assert PriceTotal(rows, "bitcoin") == 22.0;
  }

  /** A position bought and sold in full is left out of the holdings. */
  lemma SummaryExampleClosed()
    ensures var rows := [Row(1, "bitcoin", 1.0, 10.0, "binance", "buy", 0),
                         Row(2, "bitcoin", 1.0, 12.0, "binance", "sell", 1)];
      Holdings(rows) == []
  {
    var rows := [Row(1, "bitcoin", 1.0, 10.0, "binance", "buy", 0),
                 Row(2, "bitcoin", 1.0, 12.0, "binance", "sell", 1)];
    assert rows[1..][1..] == [];
    assert GroupSymbols(rows) == ["bitcoin"];
    assert NetQuantity(rows, "bitcoin") == 0.0;
  }

  /* ---------------------------------------------------------------------- */
  /* The table                                                               */
  /* ---------------------------------------------------------------------- */

  class Ledger {
    /** Whether `CREATE TABLE` has run on this database. */
    var tableExists: bool
    /** The table's rows in insertion order. */
    var rows: seq<Row>
    /** The id the autoincrement counter hands out next. */
    var nextId: nat

    /** Ids start at 1, increase strictly in insertion order and stay below
        the counter; stored symbols are lower case; no table, no rows. */
    ghost predicate Valid()
      reads this
    {
      && 1 <= nextId
      && (!tableExists ==> rows == [] && nextId == 1)
      && (forall i :: 0 <= i < |rows| ==> 1 <= rows[i].id < nextId && IsLowerCase(rows[i].symbol))
      && (forall i, j :: 0 <= i < j < |rows| ==> rows[i].id < rows[j].id)
    }

    /** A database file in which the table has not been created yet. */
    constructor ()
      ensures Valid()
      ensures !tableExists && rows == [] && nextId == 1
    {
      tableExists := false;
      rows := [];
      nextId := 1;
    }

    /** `CREATE TABLE IF NOT EXISTS`: afterwards the table exists, and the rows
        and the counter are what they were, so a second call changes nothing. */
    method InitDb()
      requires Valid()
      modifies this
      ensures Valid()
      ensures tableExists
      ensures rows == old(rows) && nextId == old(nextId)
    {
      if !tableExists {
        rows := [];
        nextId := 1;
        tableExists := true;
      }
    }

    /** The `INSERT`: without a table it fails and nothing changes; otherwise
        exactly one row is appended, carrying the counter's id, the lower-cased
        symbol, the other fields as given and the supplied clock reading, and
        that id is returned. */
    method AddTransaction(tx: Transaction, now: nat) returns (r: Result<nat, DbError>)
      requires Valid()
      modifies this
      ensures Valid()
      ensures tableExists == old(tableExists)
      ensures !old(tableExists) ==> r == Err(NoSuchTable) && rows == old(rows) && nextId == old(nextId)
      ensures old(tableExists) ==>
        && r == Ok(old(nextId))
        && rows == old(rows) + [Row(old(nextId), Lower(tx.cryptoSymbol), tx.quantity, tx.priceUsd,
                                    tx.exchange, tx.transactionType, now)]
        && nextId == old(nextId) + 1
      ensures r.Ok? ==> forall i :: 0 <= i < |old(rows)| ==> old(rows)[i].id < r.value
    {
      if !tableExists {
        return Err(NoSuchTable);
      }
      var id := nextId;
      LowerIsLowerCase(tx.cryptoSymbol);
      rows := rows + [Row(id, Lower(tx.cryptoSymbol), tx.quantity, tx.priceUsd, tx.exchange, tx.transactionType, now)];
      nextId := nextId + 1;
      r := Ok(id);
    }

    /** The `SELECT ... ORDER BY created_at DESC`: exactly the selected rows,
        each as often as it is stored, newest first. */
    function GetTransactions(symbol: Option<string>): (r: Result<seq<Row>, DbError>)
      reads this
      ensures r.Err? <==> !tableExists
      ensures r.Err? ==> r.error == NoSuchTable
      ensures r.Ok? ==> multiset(r.value) == multiset(Matching(rows, FilterKey(symbol)))
      ensures r.Ok? ==> forall x :: x in r.value <==> x in rows && Selected(FilterKey(symbol), x)
      ensures r.Ok? ==> NewestFirst(r.value)
      ensures r.Ok? ==> |r.value| == |Matching(rows, FilterKey(symbol))|
    {
      if !tableExists then Err(NoSuchTable)
      else
        var sorted := SortNewestFirst(Matching(rows, FilterKey(symbol)));
        assert forall x :: x in sorted <==> x in multiset(sorted);
        assert |sorted| == |multiset(sorted)|;
        Ok(sorted)
    }

    /** The aggregation query followed by the loop that copies its rows into
        `holdings`; `total_holdings` is the number of holdings. */
    method GetPortfolioSummary() returns (r: Result<Summary, DbError>)
      ensures !tableExists ==> r == Err(NoSuchTable)
      ensures tableExists ==> r.Ok? && r.value.holdings == Holdings(rows)
      ensures r.Ok? ==> r.value.totalHoldings == |r.value.holdings|
    {
      if !tableExists {
        return Err(NoSuchTable);
      }
      var holdings := CollectHoldings(Holdings(rows));
      r := Ok(Summary(holdings, |holdings|));
    }
  }

  /** The loop that turns the fetched result rows into the summary's list,
      one holding per row, in the order the query returned them. */
  method CollectHoldings(fetched: seq<Holding>) returns (holdings: seq<Holding>)
    ensures holdings == fetched
  {
    holdings := [];
    for i := 0 to |fetched|
      invariant holdings == fetched[..i]
    {
      assert fetched[..i + 1] == fetched[..i] + [fetched[i]];
      holdings := holdings + [fetched[i]];
    }
    assert fetched[..|fetched|] == fetched;
  }

  /** Two inserts in a row return two different ids, the later one larger. */
  method InsertTwice(ledger: Ledger, a: Transaction, b: Transaction, t1: nat, t2: nat)
    returns (first: Result<nat, DbError>, second: Result<nat, DbError>)
    requires ledger.Valid() && ledger.tableExists
    modifies ledger
    ensures ledger.Valid()
    ensures first.Ok? && second.Ok? && first.value < second.value
    ensures |ledger.rows| == |old(ledger.rows)| + 2 && ledger.rows[..|old(ledger.rows)|] == old(ledger.rows)
    ensures ledger.rows[|old(ledger.rows)|].id == first.value && ledger.rows[|old(ledger.rows)| + 1].id == second.value
  {
    first := ledger.AddTransaction(a, t1);
    second := ledger.AddTransaction(b, t2);
  }
}
