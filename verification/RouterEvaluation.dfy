/** Which strategies the router lets trade: every (strategy, stock) pair is backtested on its own history,
    and those that made money win. */
module Evaluations {
  import opened Orders
  import opened Exchange
  import opened Manager
  import opened Router
  import Backtesting

  datatype Evaluation = Evaluation(
    symbol: SymbolId, strategyId: StrategyId, name: string, bars: nat, lastPrice: int, pnl: int, fills: nat,
      selected: bool)

  /** The history of each stock, the registered strategies with their trading modes, and the capital of a trial. */
  datatype Trial = Trial(history: SymbolId -> seq<BarEvent>, registry: Registry, mode: string -> TradingMode,
    capital: int)

  function OrderOf(t: Trial, name: string, symbol: SymbolId, lastPrice: int): Backtesting.Order {
    Backtesting.Order(symbol, t.mode(name), t.capital,
      t.registry(name, symbol, PositionForCapital(t.capital, lastPrice, 5)))
  }

  function Evaluate(t: Trial, name: string, id: StrategyId, symbol: SymbolId): Evaluation {
    var bars := t.history(symbol);
    if bars == [] then Evaluation(symbol, id, name, 0, 0, 0, 0, false)
    else
      var last := bars[|bars| - 1].candle.close;
      var r := Backtesting.Backtested(OrderOf(t, name, symbol, last), bars);
      Evaluation(symbol, id, name, |bars|, last, r.realized, r.fills, r.realized > 0)
  }

  /** One strategy on the first m stocks. */
  function Row(t: Trial, name: string, id: StrategyId, stocks: seq<SymbolId>, m: nat): (r: seq<Evaluation>)
    requires m <= |stocks|
    ensures |r| == m && forall j :: 0 <= j < m ==> r[j] == Evaluate(t, name, id, stocks[j])
  {
    if m == 0 then [] else Row(t, name, id, stocks, m - 1) + [Evaluate(t, name, id, stocks[m - 1])]
  }

  /** The first n strategies on all stocks; strategies are numbered from one. */
  function Rows(t: Trial, names: seq<string>, stocks: seq<SymbolId>, n: nat): seq<Evaluation>
    requires n <= |names|
  {
    if n == 0 then [] else Rows(t, names, stocks, n - 1) + Row(t, names[n - 1], n, stocks, |stocks|)
  }

  function WinnerOf(e: Evaluation): Winner { Winner(e.symbol, e.strategyId, e.name, e.lastPrice) }

  function Winners(rows: seq<Evaluation>): seq<Winner> {
    if rows == [] then []
    else Winners(rows[..|rows| - 1]) + if rows[|rows| - 1].selected then [WinnerOf(rows[|rows| - 1])] else []
  }

  /** Evaluations of pairwise different (strategy, stock) pairs. */
  ghost predicate AllDifferent(rows: seq<Evaluation>) {
    forall i, j :: 0 <= i < j < |rows| ==> rows[i].symbol != rows[j].symbol || rows[i].strategyId != rows[j].strategyId
  }

  lemma {:induction false} WinnersAreSelected(rows: seq<Evaluation>)
    ensures forall w :: w in Winners(rows) <==>
      exists i :: 0 <= i < |rows| && rows[i].selected && w == WinnerOf(rows[i])
  {
    if rows != [] {
      var n := |rows| - 1;
      WinnersAreSelected(rows[..n]);
      forall w
        ensures w in Winners(rows) <==> exists i :: 0 <= i < |rows| && rows[i].selected && w == WinnerOf(rows[i])
      {
        if w in Winners(rows[..n]) {
          var i :| 0 <= i < n && rows[..n][i].selected && w == WinnerOf(rows[..n][i]);
          assert rows[i].selected && w == WinnerOf(rows[i]);
        }
        if i :| 0 <= i < |rows| && rows[i].selected && w == WinnerOf(rows[i]) {
          if i < n { assert rows[..n][i] == rows[i]; }
        }
      }
    }
  }

  lemma {:induction false} WinnersDistinct(rows: seq<Evaluation>)
    requires AllDifferent(rows)
    ensures DistinctPairs(Winners(rows))
  {
    if rows != [] {
      var n := |rows| - 1;
      assert AllDifferent(rows[..n]);
      WinnersDistinct(rows[..n]);
      WinnersAreSelected(rows[..n]);
      var before := Winners(rows[..n]);
      forall k | 0 <= k < |before|
        ensures before[k].symbol != rows[n].symbol || before[k].strategyId != rows[n].strategyId
      {
        assert before[k] in before;
        var i :| 0 <= i < n && rows[..n][i].selected && before[k] == WinnerOf(rows[..n][i]);
        assert rows[..n][i] == rows[i];
      }
    }
  }

  lemma {:induction false} RowsAre(t: Trial, names: seq<string>, stocks: seq<SymbolId>, n: nat)
    requires n <= |names|
    ensures forall e :: e in Rows(t, names, stocks, n) <==>
      exists i, j :: 0 <= i < n && 0 <= j < |stocks| && e == Evaluate(t, names[i], i + 1, stocks[j])
  {
    hide Evaluate;
    if n > 0 {
      RowsAre(t, names, stocks, n - 1);
      var row := Row(t, names[n - 1], n, stocks, |stocks|);
      forall e ensures e in row <==> exists j :: 0 <= j < |stocks| && e == Evaluate(t, names[n - 1], n, stocks[j]) {
        if j :| 0 <= j < |stocks| && e == Evaluate(t, names[n - 1], n, stocks[j]) { assert row[j] == e; }
      }
    }
  }

  lemma {:induction false} RowsDiffer(t: Trial, names: seq<string>, stocks: seq<SymbolId>, n: nat)
    requires n <= |names| && forall i, j :: 0 <= i < j < |stocks| ==> stocks[i] != stocks[j]
    ensures AllDifferent(Rows(t, names, stocks, n))
    ensures forall k :: 0 <= k < |Rows(t, names, stocks, n)| ==> Rows(t, names, stocks, n)[k].strategyId <= n
  {
    hide Evaluate; hide AllDifferent;
    if n == 0 {
      NoneDiffer();
    } else {
      RowsDiffer(t, names, stocks, n - 1);
      var before, row := Rows(t, names, stocks, n - 1), Row(t, names[n - 1], n, stocks, |stocks|);
      forall j | 0 <= j < |row| ensures row[j].strategyId == n && row[j].symbol == stocks[j] {
        EvaluatedFor(t, names[n - 1], n, stocks[j]);
      }
      DifferConcat(before, row, n);
    }
  }

  lemma NoneDiffer()
    ensures AllDifferent([])
  {}

  lemma EvaluatedFor(t: Trial, name: string, id: StrategyId, symbol: SymbolId)
    ensures var e := Evaluate(t, name, id, symbol); e.strategyId == id && e.symbol == symbol
  {
    hide PositionForCapital; hide Backtesting.Backtested;
  }

  lemma DifferConcat(before: seq<Evaluation>, row: seq<Evaluation>, n: nat)
    requires AllDifferent(before) && forall k :: 0 <= k < |before| ==> before[k].strategyId < n
    requires forall i, j :: 0 <= i < j < |row| ==> row[i].symbol != row[j].symbol
    requires forall j :: 0 <= j < |row| ==> row[j].strategyId == n
    ensures AllDifferent(before + row)
  {}

  /** A pair wins exactly when its stock has history on which its backtest realised a profit, and no pair
      wins twice if no stock is listed twice. */
  lemma WinnersExact(t: Trial, names: seq<string>, stocks: seq<SymbolId>)
    ensures forall w :: w in Winners(Rows(t, names, stocks, |names|)) <==>
      exists i, j :: 0 <= i < |names| && 0 <= j < |stocks| && Wins(t, names, stocks, i, j, w)
    ensures (forall i, j :: 0 <= i < j < |stocks| ==> stocks[i] != stocks[j]) ==>
      DistinctPairs(Winners(Rows(t, names, stocks, |names|)))
  {
    hide Evaluate; hide Row; hide Rows; hide Winners; hide DistinctPairs; hide AllDifferent;
    var rows := Rows(t, names, stocks, |names|);
    RowsAre(t, names, stocks, |names|);
    WinnersAreSelected(rows);
    if forall i, j :: 0 <= i < j < |stocks| ==> stocks[i] != stocks[j] {
      RowsDiffer(t, names, stocks, |names|);
      WinnersDistinct(rows);
    }
    forall w
      ensures w in Winners(rows) <==>
        exists i, j :: 0 <= i < |names| && 0 <= j < |stocks| && Wins(t, names, stocks, i, j, w)
    {
      if w in Winners(rows) {
        var k :| 0 <= k < |rows| && rows[k].selected && w == WinnerOf(rows[k]);
        assert rows[k] in rows;
        var i, j :| 0 <= i < |names| && 0 <= j < |stocks| && rows[k] == Evaluate(t, names[i], i + 1, stocks[j]);
        WinsIff(t, names, stocks, i, j, w);
      }
      if i, j :| 0 <= i < |names| && 0 <= j < |stocks| && Wins(t, names, stocks, i, j, w) {
        WinsIff(t, names, stocks, i, j, w);
        var e := Evaluate(t, names[i], i + 1, stocks[j]);
        assert e in rows;
        var k :| 0 <= k < |rows| && rows[k] == e;
      }
    }
  }

  /** Strategy i made money on stock j, and w is the resulting winner. */
  ghost predicate Wins(t: Trial, names: seq<string>, stocks: seq<SymbolId>, i: int, j: int, w: Winner)
    requires 0 <= i < |names| && 0 <= j < |stocks|
  {
    var bars := t.history(stocks[j]);
    && bars != []
    && w == Winner(stocks[j], i + 1, names[i], bars[|bars| - 1].candle.close)
    && Backtesting.Backtested(OrderOf(t, names[i], stocks[j], w.lastPrice), bars).realized > 0
  }

  lemma WinsIff(t: Trial, names: seq<string>, stocks: seq<SymbolId>, i: int, j: int, w: Winner)
    requires 0 <= i < |names| && 0 <= j < |stocks|
    ensures Wins(t, names, stocks, i, j, w) <==>
      (var e := Evaluate(t, names[i], i + 1, stocks[j]); e.selected && w == WinnerOf(e))
  {
    hide PositionForCapital; hide Backtesting.Backtested;
  }

  /** The router's evaluation: a backtest for every pair, in order. */
  method EvaluateAll(t: Trial, names: seq<string>, stocks: seq<SymbolId>) returns (rows: seq<Evaluation>)
    ensures rows == Rows(t, names, stocks, |names|)
  {
    hide Row;
    rows := [];
    for i := 0 to |names|
      invariant rows == Rows(t, names, stocks, i)
    {
      var row := EvaluateRow(t, names[i], i + 1, stocks);
      rows := rows + row;
    }
  }

  method EvaluateRow(t: Trial, name: string, id: StrategyId, stocks: seq<SymbolId>) returns (row: seq<Evaluation>)
    ensures row == Row(t, name, id, stocks, |stocks|)
  {
    hide Evaluate;
    row := [];
    for j := 0 to |stocks|
      invariant row == Row(t, name, id, stocks, j)
    {
      var e := EvaluateOne(t, name, id, stocks[j]);
      row := row + [e];
    }
  }

  method EvaluateOne(t: Trial, name: string, id: StrategyId, symbol: SymbolId) returns (e: Evaluation)
    ensures e == Evaluate(t, name, id, symbol)
  {
    var bars := t.history(symbol);
    if bars == [] { return Evaluation(symbol, id, name, 0, 0, 0, 0, false); }
    var last := bars[|bars| - 1].candle.close;
    var exchange := new SimulatedExchange(DEFAULT_VENUE);
    var runner := new Backtesting.BacktestRunner(OrderOf(t, name, symbol, last), exchange);
    var r := runner.Run(bars);
    e := Evaluation(symbol, id, name, |bars|, last, r.realized, r.fills, r.realized > 0);
  }
}
