/** From the evaluation backtests to the settlement: the pairs that made money on their history are the
    ones that trade, and the workbook gets their final cash back. */
module EvaluatedRun {
  import opened Orders
  import opened Router
  import opened Workbooks
  import opened RunProtocol
  import opened RunManagement
  import opened Evaluations

  ghost predicate Distinct(stocks: seq<SymbolId>) {
    forall i, j :: 0 <= i < j < |stocks| ==> stocks[i] != stocks[j]
  }

  /** The evaluations that let a pair trade. */
  function Chosen(t: Trial, names: seq<string>, stocks: seq<SymbolId>): seq<Winner> {
    Winners(Rows(t, names, stocks, |names|))
  }

  /** w is the outcome of a backtest of some pair that realised a profit. */
  ghost predicate MadeMoney(t: Trial, names: seq<string>, stocks: seq<SymbolId>, w: Winner) {
    exists i, j :: 0 <= i < |names| && 0 <= j < |stocks| && Wins(t, names, stocks, i, j, w)
  }

  /** With distinct stocks and a paisa for every profitable pair, a run trades exactly the pairs whose own
      backtest made money, each with its share, and returns exactly the final cash of their containers. */
  lemma ProfitablePairsTrade(s: BooksState, config: RunConfig, t: Trial, names: seq<string>, stocks: seq<SymbolId>,
                             tape: seq<BarEvent>)
    requires BooksOk(s) && Distinct(stocks)
    requires Chosen(t, names, stocks) != [] && config.capital >= |Chosen(t, names, stocks)|
    ensures var chosen := Chosen(t, names, stocks);
      var out := Execute(s, config, chosen, tape, t.registry).1;
      && out.returned == TotalCash(out.traded) && |out.traded| == |chosen|
      && (forall k :: 0 <= k < |chosen| ==>
            TradedFor(out.traded[k], chosen[k], Share(config.capital, |chosen|, k)))
      && (forall w :: w in chosen <==> MadeMoney(t, names, stocks, w))
  {
    hide Execute; hide Rows; hide Winners; hide Share; hide TotalCash; hide BooksOk; hide Wins; hide TradedFor;
    var chosen := Chosen(t, names, stocks);
    WinnersExact(t, names, stocks);
    FullPoolReturnsCash(s, config, chosen, tape, t.registry);
    forall w ensures w in chosen <==> MadeMoney(t, names, stocks, w) {}
  }

  method SelectWinners(rows: seq<Evaluation>) returns (winners: seq<Winner>)
    ensures winners == Winners(rows)
  {
    winners := [];
    for k := 0 to |rows|
      invariant winners == Winners(rows[..k])
    {
      assert rows[..k + 1][..k] == rows[..k];
      if rows[k].selected { winners := winners + [WinnerOf(rows[k])]; }
    }
    assert rows[..|rows|] == rows;
  }

  /** A run that starts with the evaluation of all pairs. */
  method RunMarket(books: WorkbookManager, config: RunConfig, t: Trial, names: seq<string>, stocks: seq<SymbolId>,
                   tape: seq<BarEvent>)
    returns (out: RunResult)
    requires books.Valid()
    modifies books
    ensures books.Valid()
    ensures (books.State(), out) == Execute(old(books.State()), config, Chosen(t, names, stocks), tape, t.registry)
    ensures Distinct(stocks) && 0 < |Chosen(t, names, stocks)| <= config.capital ==>
      |out.traded| == |Chosen(t, names, stocks)| && out.returned == TotalCash(out.traded)
  {
    hide Execute; hide Rows; hide Winners; hide Share; hide TotalCash; hide BooksOk; hide Wins; hide Distinct;
    hide TradedFor;
    ghost var before := books.State();
    var rows := EvaluateAll(t, names, stocks);
    var winners := SelectWinners(rows);
    var manager := new RunManager();
    out := manager.ExecuteRun(books, config, winners, tape, t.registry);
    if Distinct(stocks) && 0 < |winners| <= config.capital {
      ProfitablePairsTrade(before, config, t, names, stocks, tape);
    }
  }
}
