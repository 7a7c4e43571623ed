/** One strategy instance on one symbol: its life cycle, orders and cash. */
module Container {
  import opened Domain
  import opened Orders
  import opened Exchange
  import opened Holdings
  import opened Ledger
  import opened Risk

  datatype Seen = SawBar(bar: BarEvent, position: int, cash: int) | SawFill(fill: Fill)

  /** An arbitrary strategy: what it does may depend on everything it has seen so far. */
  datatype Strategy = Strategy(decide: seq<Seen> -> seq<Intent>, wantsExit: seq<Seen> -> bool)

  datatype Status = WarmingUp | Active | Exiting | Stopped

  datatype Config = Config(
    id: ContainerId, workbook: nat, symbol: SymbolId, strategyId: StrategyId, name: string, tradingMode: TradingMode,
    realAllocation: int, simCash: int, strategy: Strategy)

  datatype Signal = Signal(ts: Timestamp, intents: nat)
  datatype RejectionRecord = RejectionRecord(ts: Timestamp, rule: string)

  datatype State = State(
    config: Config, mode: ContainerMode, status: Status, held: Holding, lastBar: Option<BarEvent>,
    registered: bool, fills: nat, seen: seq<Seen>, signals: seq<Signal>, rejections: seq<RejectionRecord>)
  {
    function Allocation(): int { if mode == Real then config.realAllocation else config.simCash }
    function Key(): Key { Risk.Key(config.workbook, config.symbol, config.strategyId) }
  }

  /** The venue, the ledger and the risk engine that containers share. */
  datatype World = World(venue: VenueConfig, nextOrder: nat, ledger: LedgerState, risk: RiskState)

  function Created(config: Config, mode: ContainerMode): State {
    State(config, mode, WarmingUp, Holding(if mode == Real then config.realAllocation else config.simCash, 0, 0, 0),
          None, false, 0, [], [], [])
  }

  function ContextOf(c: State): Context {
    Context(c.config.tradingMode, c.held.cash, c.held.position, c.held.realized,
            if c.lastBar.Some? then c.lastBar.value.candle.ts else 0)
  }

  // ---------------------------------------------------------------- starting and upgrading

  function StartError(c: State, w: World): Option<string> {
    if c.status == Active then Some("already started")
    else if c.status == Stopped then Some("stopped")
    else if Occupied(w.risk, c.Key(), c.config.id) then Some("duplicate symbol+strategy in workbook")
    else TakeError(w.ledger, c.config.id, c.Allocation(), c.mode)
  }

  function Start(c: State, w: World): (State, World) {
    var e := StartError(c, w);
    if e.None? then
      (c.(status := Active, registered := true),
       w.(risk := Register(w.risk, c.Key(), c.config.id),
         ledger := Take(w.ledger, c.config.id, c.Allocation(), c.mode)))
    else if c.status == Active || c.status == Stopped || Occupied(w.risk, c.Key(), c.config.id) then (c, w)
    else
      (c.(registered := false), w.(risk := Unregister(Register(w.risk, c.Key(), c.config.id), c.config.id)))
  }

  function UpgradeError(c: State, w: World, m: ContainerMode): Option<string> {
    if c.status != Active && c.status != WarmingUp then Some("not running")
    else if c.mode == Backtest && m == Paper then None
    else if c.mode != Real && m == Real then CommitError(w.ledger, c.config.id)
    else Some("invalid upgrade")
  }

  function Upgrade(c: State, w: World, m: ContainerMode): (State, World) {
    if UpgradeError(c, w, m).Some? then (c, w)
    else if m == Paper then (c.(mode := Paper), w)
    else (c.(mode := Real), w.(ledger := CommitReal(w.ledger, c.config.id)))
  }

  // ---------------------------------------------------------------- trading

  /** Submit an order and, if it fills, book the fill in the container and in the ledger. */
  function Submitted(c: State, w: World, i: Intent, bar: BarEvent): (State, World, bool)
  {
    var h := c.held;
    if !Accepts(w.venue, i.side, i.qty, bar.candle.close, c.config.tradingMode, h.cash, h.position) then (c, w, false)
    else
      var f := Execution(w.venue, w.nextOrder, i, bar, c.config.tradingMode, h.avg).(container := c.config.id);
      (c.(held := ApplyFill(h, f), fills := c.fills + 1, seen := c.seen + [SawFill(f)]),
       w.(nextOrder := w.nextOrder + 1, ledger := LedgerFill(w.ledger, f)),
       true)
  }

  /** Sell the whole position at the given price, without asking the risk engine. */
  function Flatten(c: State, w: World, price: int): (State, World)
  {
    if c.held.position <= 0 || c.lastBar.None? then (c, w)
    else
      var bar := c.lastBar.value.(candle := c.lastBar.value.candle.(close := price));
      var r := Submitted(c, w, Intent(c.config.strategyId, c.config.symbol, Sell, c.held.position, price), bar);
      (r.0, r.1)
  }

  function Stop(c: State, w: World): (State, World)
  {
    if c.status == Stopped then (c, w)
    else
      (c.(status := Stopped, registered := false),
       w.(risk := if c.registered then Unregister(w.risk, c.config.id) else w.risk,
          ledger := GiveBack(w.ledger, c.config.id, c.held.cash)))
  }

  function ForceExit(c: State, w: World, price: int): (State, World)
  {
    if c.status == Stopped then (c, w)
    else
      var r := Flatten(c.(status := Exiting), w, price);
      Stop(r.0, r.1)
  }

  function Exit(c: State, w: World): (State, World)
  {
    if c.status == Stopped then (c, w)
    else if c.lastBar.Some? then ForceExit(c, w, c.lastBar.value.candle.close)
    else Stop(c.(status := Exiting), w)
  }

  function Normalised(c: State, i: Intent, bar: BarEvent): Intent {
    i.(symbol := c.config.symbol, strategy := c.config.strategyId,
      price := if i.price == 0 then bar.candle.close else i.price)
  }

  /** Put the intents of one bar through risk and venue, in order, until the strategy asks to leave. */
  function RunIntents(c: State, w: World, bar: BarEvent, intents: seq<Intent>): (State, World)
    decreases |intents|
  {
    if intents == [] then (c, w)
    else
      var i := Normalised(c, intents[0], bar);
      var no := Rejection(w.risk, ContextOf(c), i);
      if no.Some? then
        RunIntents(c.(rejections := c.rejections + [RejectionRecord(bar.candle.ts, no.value)]), w, bar, intents[1..])
      else
        var (c1, w1, filled) := Submitted(c, w, i, bar);
        if filled && c1.config.strategy.wantsExit(c1.seen) then Exit(c1, w1)
        else RunIntents(c1, w1, bar, intents[1..])
  }

  function OnBar(c: State, w: World, bar: BarEvent): (State, World)
  {
    if bar.symbol != c.config.symbol then (c, w)
    else
      var c1 := c.(lastBar := Some(bar));
      if c.status != Active then (c1, w)
      else
        var seen := c.seen + [SawBar(bar, c.held.position, c.held.cash)];
        var intents := c.config.strategy.decide(seen);
        var c2 := c1.(seen := seen,
          signals := c.signals + if intents == [] then [] else [Signal(bar.candle.ts, |intents|)]);
        RunIntents(c2, w, bar, intents)
  }

  function OnSystemEvent(c: State, w: World, e: SystemEvent): (State, World)
  {
    var w1 := w.(risk := OnEvent(w.risk, e));
    if c.status != Active then (c, w1)
    else if e == KillSwitch then
      if c.lastBar.Some? then ForceExit(c, w1, c.lastBar.value.candle.close) else Stop(c, w1)
    else if e == MisSquareoffWarning && c.config.tradingMode == Mis && c.lastBar.Some? then
      Flatten(c, w1, c.lastBar.value.candle.close)
    else (c, w1)
  }

  // ---------------------------------------------------------------- what one container can do to the world

  /** A position needs a price to be closed at, and a stopped container holds nothing. */
  ghost predicate Healthy(c: State) {
    && (c.held.position > 0 ==> c.lastBar.Some?)
    && (c.status == Stopped ==> c.held.position == 0)
  }

  /** The ledger without its positions and fills. */
  function Money(l: LedgerState): LedgerState { l.(positions := map[], fills := []) }

  /** Trading moves cash and position of the container and the same shares in the ledger, nothing else;
      in the square-off window an MIS position never grows. */
  ghost predicate Traded(c: State, w: World, c': State, w': World) {
    && c'.config == c.config && c'.mode == c.mode && c'.status == c.status && c'.lastBar == c.lastBar
      && c'.registered == c.registered
    && w'.venue == w.venue && w'.risk == w.risk && Money(w'.ledger) == Money(w.ledger)
    && (forall s :: w'.ledger.Net(s) == w.ledger.Net(s) +
          (if s == c.config.symbol then c'.held.position - c.held.position else 0))
    && |w'.ledger.fills| - |w.ledger.fills| == c'.fills - c.fills
    && (w.risk.misSquareoff && c.config.tradingMode == Mis ==> c'.held.position <= c.held.position)
  }

  /** The ledger carries at least this container's shares of its symbol. */
  ghost predicate Backed(c: State, w: World) {
    w.ledger.Net(c.config.symbol) >= c.held.position
  }

  lemma SubmittedTrades(c: State, w: World, i: Intent, bar: BarEvent)
    requires Backed(c, w) && i.symbol == c.config.symbol
    requires w.risk.misSquareoff && c.config.tradingMode == Mis ==> i.side == Sell
    ensures var r := Submitted(c, w, i, bar); Traded(c, w, r.0, r.1) && Backed(r.0, r.1)
    ensures i.side == Sell && i.qty == c.held.position && i.qty > 0 ==> Submitted(c, w, i, bar).0.held.position == 0
  {
    hide Fees; hide CashImpact; hide Margin; hide MergeAverage; hide FillPrice;
  }

  lemma FlattenTrades(c: State, w: World, price: int)
    requires Backed(c, w)
    ensures var r := Flatten(c, w, price); Traded(c, w, r.0, r.1) && Backed(r.0, r.1)
    ensures c.lastBar.Some? ==> Flatten(c, w, price).0.held.position == 0
  {
    hide Submitted;
    if c.held.position > 0 && c.lastBar.Some? {
      var bar := c.lastBar.value.(candle := c.lastBar.value.candle.(close := price));
      SubmittedTrades(c, w, Intent(c.config.strategyId, c.config.symbol, Sell, c.held.position, price), bar);
    }
  }

  /** The effect of any step: trading, possibly followed by stopping, which returns exactly the final
      cash to the ledger and leaves the container flat. */
  ghost predicate Stepped(c: State, w: World, c': State, w': World) {
    && c'.config == c.config && c'.mode == c.mode && Healthy(c')
    && w'.venue == w.venue
    && (forall s :: w'.ledger.Net(s) == w.ledger.Net(s) +
          (if s == c.config.symbol then c'.held.position - c.held.position else 0))
    && |w'.ledger.fills| - |w.ledger.fills| == c'.fills - c.fills
    && w'.risk.limits == w.risk.limits && w'.risk.killSwitch == w.risk.killSwitch
      && w'.risk.misSquareoff == w.risk.misSquareoff
    && (w.risk.misSquareoff && c.config.tradingMode == Mis ==> c'.held.position <= c.held.position)
    && (if c'.status == c.status then
          c'.registered == c.registered && Money(w'.ledger) == Money(w.ledger) && w'.risk == w.risk
          && (c.status == Stopped ==> c'.held == c.held)
        else
          c'.status == Stopped && !c'.registered
          && Money(w'.ledger) == Money(GiveBack(w.ledger, c.config.id, c'.held.cash))
          && w'.risk == if c.registered then Unregister(w.risk, c.config.id) else w.risk)
  }

  lemma StopSteps(c: State, w: World, c1: State, w1: World, exiting: State)
    requires c.status != Stopped && exiting == c.(status := c1.status) && Traded(exiting, w, c1, w1)
    requires c1.held.position == 0 && c1.status != Stopped
    ensures var r := Stop(c1, w1); Stepped(c, w, r.0, r.1)
  {}

  lemma ExitSteps(c: State, w: World, price: int)
    requires Backed(c, w) && Healthy(c) && c.status != Stopped
    ensures c.lastBar.Some? ==> (var r := ForceExit(c, w, price); Stepped(c, w, r.0, r.1) && r.0.status == Stopped)
    ensures c.lastBar.None? ==> (var r := Stop(c, w); Stepped(c, w, r.0, r.1) && r.0.status == Stopped)
    ensures var r := Exit(c, w); Stepped(c, w, r.0, r.1) && r.0.status == Stopped
  {
    hide Submitted; hide GiveBack; hide Unregister;
    var exiting := c.(status := Exiting);
    if c.lastBar.Some? {
      var p := c.lastBar.value.candle.close;
      FlattenTrades(exiting, w, price);
      FlattenTrades(exiting, w, p);
      var r, s := Flatten(exiting, w, price), Flatten(exiting, w, p);
      hide Flatten;
      StopSteps(c, w, r.0, r.1, exiting);
      StopSteps(c, w, s.0, s.1, exiting);
    } else {
      assert Traded(exiting, w, exiting, w) && Traded(c, w, c, w);
      StopSteps(c, w, exiting, w, exiting);
      StopSteps(c, w, c, w, c);
    }
  }

  lemma TradedSteps(c: State, w: World, c1: State, w1: World, c2: State, w2: World)
    requires Traded(c, w, c1, w1) && Stepped(c1, w1, c2, w2) && c.status != Stopped
    ensures Stepped(c, w, c2, w2)
  {
    GiveBackMoney(w.ledger, w1.ledger, c.config.id, c2.held.cash);
    hide GiveBack; hide Unregister;
  }

  lemma GiveBackMoney(a: LedgerState, b: LedgerState, id: ContainerId, cash: int)
    requires Money(a) == Money(b)
    ensures Money(GiveBack(a, id, cash)) == Money(GiveBack(b, id, cash))
  {}

  /** In the square-off window no MIS order passes the rule chain. */
  lemma WindowRejects(r: RiskState, ctx: Context, i: Intent)
    ensures r.misSquareoff && ctx.mode == Mis ==> Rejection(r, ctx, i).Some?
  {}

  lemma {:induction false} RunIntentsSteps(c: State, w: World, bar: BarEvent, intents: seq<Intent>)
    requires Backed(c, w) && Healthy(c) && c.status == Active && c.lastBar.Some?
    ensures var r := RunIntents(c, w, bar, intents); Stepped(c, w, r.0, r.1) && r.0.lastBar == c.lastBar
    decreases |intents|
  {
    hide Submitted; hide Exit; hide Stepped; hide Traded; hide Rejection; hide Healthy;
    if intents == [] {
      assert Stepped(c, w, c, w) by { NothingSteps(c, w); }
    } else {
      var i := Normalised(c, intents[0], bar);
      var no := Rejection(w.risk, ContextOf(c), i);
      if no.Some? {
        var c1 := c.(rejections := c.rejections + [RejectionRecord(bar.candle.ts, no.value)]);
        RecordOnly(c, w, c1);
        RunIntentsSteps(c1, w, bar, intents[1..]);
        var r := RunIntents(c1, w, bar, intents[1..]);
        TradedSteps(c, w, c1, w, r.0, r.1);
      } else {
        WindowRejects(w.risk, ContextOf(c), i);
        SubmittedTrades(c, w, i, bar);
        var (c1, w1, filled) := Submitted(c, w, i, bar);
        TradedStays(c, w, c1, w1);
        var r := RunIntents(c, w, bar, intents);
        if filled && c1.config.strategy.wantsExit(c1.seen) {
          ExitSteps(c1, w1, 0);
          ExitKeepsBar(c1, w1);
        } else {
          RunIntentsSteps(c1, w1, bar, intents[1..]);
        }
        TradedSteps(c, w, c1, w1, r.0, r.1);
      }
    }
  }

  /** The intents of a bar are judged one after the other, a rejected or unfilled one like any other,
      until the strategy has left. */
  lemma {:induction false} IntentsInTurn(c: State, w: World, bar: BarEvent, xs: seq<Intent>, ys: seq<Intent>)
    requires c.status == Active
    ensures var r := RunIntents(c, w, bar, xs);
      && (r.0.status == Active || r.0.status == Stopped)
      && RunIntents(c, w, bar, xs + ys) == if r.0.status == Stopped then r else RunIntents(r.0, r.1, bar, ys)
    decreases |xs|
  {
    hide Rejection; hide ContextOf; hide Normalised;
    if xs == [] {
      assert xs + ys == ys;
    } else {
      assert (xs + ys)[0] == xs[0] && (xs + ys)[1..] == xs[1..] + ys;
      var i := Normalised(c, xs[0], bar);
      var no := Rejection(w.risk, ContextOf(c), i);
      if no.Some? {
        IntentsInTurn(c.(rejections := c.rejections + [RejectionRecord(bar.candle.ts, no.value)]), w, bar, xs[1..], ys);
      } else {
        var (c1, w1, filled) := Submitted(c, w, i, bar);
        SubmittedStays(c, w, i, bar);
        ExitStops(c1, w1);
        hide Submitted; hide Exit;
        if !(filled && c1.config.strategy.wantsExit(c1.seen)) { IntentsInTurn(c1, w1, bar, xs[1..], ys); }
      }
    }
  }

  lemma SubmittedStays(c: State, w: World, i: Intent, bar: BarEvent)
    ensures Submitted(c, w, i, bar).0.status == c.status
  {
    hide Accepts; hide Execution; hide ApplyFill; hide LedgerFill;
  }

  lemma ExitStops(c: State, w: World)
    ensures c.status != Stopped ==> Exit(c, w).0.status == Stopped
  {
    hide Submitted;
  }

  /** One intent, for the container's symbol and priced at the bar's close unless it names a price, is
      rejected and recorded, refused by the venue, or filled at the bar; then the strategy may leave. */
  lemma IntentOutcome(c: State, w: World, bar: BarEvent, i: Intent)
    requires c.lastBar == Some(bar)
    ensures var n := Intent(c.config.strategyId, c.config.symbol, i.side, i.qty,
                            if i.price == 0 then bar.candle.close else i.price);
      var ctx := Context(c.config.tradingMode, c.held.cash, c.held.position, c.held.realized, bar.candle.ts);
      RunIntents(c, w, bar, [i]) ==
        match Rejection(w.risk, ctx, n)
        case Some(rule) => (c.(rejections := c.rejections + [RejectionRecord(bar.candle.ts, rule)]), w)
        case None =>
          var (c1, w1, filled) := Submitted(c, w, n, bar);
          if filled && c1.config.strategy.wantsExit(c1.seen) then Exit(c1, w1) else (c1, w1)
  {
    hide Submitted; hide Rejection; hide Exit;
    assert [i][1..] == [];
  }

  lemma NothingSteps(c: State, w: World)
    requires Healthy(c)
    ensures Stepped(c, w, c, w)
  {}

  lemma RecordOnly(c: State, w: World, c1: State)
    requires Backed(c, w) && Healthy(c)
    requires c1 == c.(rejections := c1.rejections, seen := c1.seen, signals := c1.signals)
    ensures Traded(c, w, c1, w) && Backed(c1, w) && Healthy(c1)
  {}

  lemma TradedStays(c: State, w: World, c1: State, w1: World)
    requires Traded(c, w, c1, w1) && Healthy(c) && c.status == Active && c.lastBar.Some?
    ensures Healthy(c1) && c1.status == Active && c1.lastBar == c.lastBar && c1.config == c.config && w1.risk == w.risk
  {}

  lemma ExitKeepsBar(c: State, w: World)
    ensures Exit(c, w).0.lastBar == c.lastBar
  {
    hide Accepts; hide Execution; hide ApplyFill; hide LedgerFill; hide GiveBack;
  }

  lemma OnBarSteps(c: State, w: World, bar: BarEvent)
    requires Backed(c, w) && Healthy(c)
    ensures var r := OnBar(c, w, bar); Stepped(c, w, r.0, r.1)
    ensures bar.symbol == c.config.symbol ==> OnBar(c, w, bar).0.lastBar == Some(bar)
  {
    hide RunIntents;
    if bar.symbol == c.config.symbol && c.status == Active {
      var seen := c.seen + [SawBar(bar, c.held.position, c.held.cash)];
      var intents := c.config.strategy.decide(seen);
      var c2 := c.(lastBar := Some(bar), seen := seen,
        signals := c.signals + if intents == [] then [] else [Signal(bar.candle.ts, |intents|)]);
      RunIntentsSteps(c2, w, bar, intents);
    }
  }

  // ---------------------------------------------------------------- forced sales

  /** The whole position, if any, went in one sale at the close of the last bar less the slippage: the
      margin at the entry price comes back with the gain over it, less the fees. */
  ghost predicate SoldOut(c: State, w: World, c': State, w': World)
    requires c.lastBar.Some?
  {
    var p := Max(0, c.lastBar.value.candle.close - w.venue.slippage);
    var q, fees := c.held.position, SellFees(w.venue.rates, p, c.held.position);
    var entry := if c.held.avg > 0 then c.held.avg else p;
    var impact := TDiv(entry * q, w.venue.Leverage(c.config.tradingMode)) + p * q - entry * q - fees;
    && c'.config == c.config && c'.mode == c.mode && c'.lastBar == c.lastBar
    && if q == 0 then w'.ledger.fills == w.ledger.fills && c'.held == c.held
       else
         && w'.ledger.fills == w.ledger.fills
              + [Fill(w.nextOrder, c.config.symbol, c.config.id, Sell, q, p, fees, impact, c.lastBar.value.candle.ts)]
         && c'.held == Holding(c.held.cash + impact, 0, 0, c.held.realized + (p * q - c.held.avg * q - fees))
  }

  /** The events that make a container of this mode sell. */
  predicate Sells(e: SystemEvent, mode: TradingMode) {
    e == KillSwitch || (e == MisSquareoffWarning && mode == Mis)
  }

  lemma FlattenSellsOut(c: State, w: World)
    requires c.lastBar.Some?
    ensures var r := Flatten(c, w, c.lastBar.value.candle.close);
      SoldOut(c, w, r.0, r.1) && r.0.status == c.status
  {
    hide SellFees; hide TDiv;
    var b := c.lastBar.value;
    assert b.(candle := b.candle.(close := b.candle.close)) == b;
  }

  lemma StopKeepsSale(c: State, w: World, c': State, w': World)
    requires c.lastBar.Some? && SoldOut(c, w, c', w')
    ensures var r := Stop(c', w'); SoldOut(c, w, r.0, r.1)
  {
    hide SellFees; hide TDiv;
  }

  /** The strategy's exit, the final exit and the kill switch sell out a container, and so does the
      square-off warning if it is intraday; no other event makes it trade, nor the warning in the other
      mode. */
  lemma ForcedSales(c: State, w: World)
    requires c.status != Stopped && c.lastBar.Some?
    ensures var r := Exit(c, w); SoldOut(c, w, r.0, r.1)
    ensures var r := ForceExit(c, w, c.lastBar.value.candle.close); SoldOut(c, w, r.0, r.1)
    ensures c.status == Active ==> var r := OnSystemEvent(c, w, KillSwitch); SoldOut(c, w, r.0, r.1)
    ensures c.status == Active && c.config.tradingMode == Mis ==>
      var r := OnSystemEvent(c, w, MisSquareoffWarning); SoldOut(c, w, r.0, r.1) && r.0.status == Active
    ensures c.config.tradingMode == Cnc ==>
      OnSystemEvent(c, w, MisSquareoffWarning) == (c, w.(risk := OnEvent(w.risk, MisSquareoffWarning)))
    ensures forall e :: e == SessionStart || e == SessionEnd ==>
      OnSystemEvent(c, w, e) == (c, w.(risk := OnEvent(w.risk, e)))
  {
    hide Flatten; hide Stop; hide OnEvent; hide SoldOut;
    var p := c.lastBar.value.candle.close;
    var exiting := c.(status := Exiting);
    FlattenSellsOut(exiting, w);
    var r := Flatten(exiting, w, p);
    StopKeepsSale(exiting, w, r.0, r.1);
    var k, m := w.(risk := OnEvent(w.risk, KillSwitch)), w.(risk := OnEvent(w.risk, MisSquareoffWarning));
    FlattenSellsOut(exiting, k);
    var r1 := Flatten(exiting, k, p);
    StopKeepsSale(exiting, k, r1.0, r1.1);
    FlattenSellsOut(c, m);
    SoldFrom(c, w);
  }

  /** A forced sale does not look at the status or at the risk engine. */
  lemma SoldFrom(c: State, w: World)
    requires c.lastBar.Some?
    ensures forall s: Status, x: RiskState, c': State, w': World ::
      SoldOut(c.(status := s), w.(risk := x), c', w') ==> SoldOut(c, w, c', w')
    ensures forall s: Status, c': State, w': World :: SoldOut(c.(status := s), w, c', w') ==> SoldOut(c, w, c', w')
    ensures forall x: RiskState, c': State, w': World :: SoldOut(c, w.(risk := x), c', w') ==> SoldOut(c, w, c', w')
  {
    hide SellFees; hide TDiv;
  }

  /** A system event first reaches the risk engine; then the container steps. After the square-off
      warning an active MIS container is flat; after the kill switch every container is stopped. */
  lemma OnEventSteps(c: State, w: World, e: SystemEvent)
    requires Backed(c, w) && Healthy(c) && (c.status == Active || c.status == Stopped)
    ensures var r := OnSystemEvent(c, w, e); Stepped(c, w.(risk := OnEvent(w.risk, e)), r.0, r.1)
    ensures e == MisSquareoffWarning && c.config.tradingMode == Mis ==> OnSystemEvent(c, w, e).0.held.position == 0
    ensures e == KillSwitch ==> OnSystemEvent(c, w, e).0.status == Stopped
    ensures c.status == Active && c.lastBar.Some? && Sells(e, c.config.tradingMode) ==>
      var r := OnSystemEvent(c, w, e); SoldOut(c, w, r.0, r.1)
  {
    hide Flatten; hide ForceExit; hide Stop; hide OnEvent; hide SoldOut;
    if c.status == Active && c.lastBar.Some? { ForcedSales(c, w); }
    var w1 := w.(risk := OnEvent(w.risk, e));
    NothingSteps(c, w1);
    if c.status == Active && c.lastBar.Some? {
      var p := c.lastBar.value.candle.close;
      FlattenTrades(c, w1, p);
      var r := Flatten(c, w1, p);
      TradedStays(c, w1, r.0, r.1);
      NothingSteps(r.0, r.1);
      TradedSteps(c, w1, r.0, r.1, r.0, r.1);
      ExitSteps(c, w1, p);
    } else if c.status == Active {
      ExitSteps(c, w1, 0);
    }
  }

  // ---------------------------------------------------------------- the container as an object

  class TradingContainer {
    const config: Config
    const venue: SimulatedExchange
    const risk: RiskEngine
    const ledger: PortfolioLedger
    var mode: ContainerMode
    var status: Status
    var cash: int
    var position: nat
    var avg: int
    var realized: int
    var lastBar: Option<BarEvent>
    var registered: bool
    var fills: nat
    var seen: seq<Seen>
    var signals: seq<Signal>
    var rejections: seq<RejectionRecord>

    function Self(): State
      reads this
    {
      State(config, mode, status, Holding(cash, position, avg, realized), lastBar, registered, fills, seen, signals,
        rejections)
    }

    /** What the container shares with others. */
    function Shared(): World
      reads venue, risk, ledger
    {
      World(venue.config, venue.nextOrderId, ledger.State(), risk.State())
    }

    constructor (config: Config, mode: ContainerMode, venue: SimulatedExchange, risk: RiskEngine,
                 ledger: PortfolioLedger)
      ensures Self() == Created(config, mode)
      ensures this.venue == venue && this.risk == risk && this.ledger == ledger
    {
      this.config, this.mode, this.venue, this.risk, this.ledger := config, mode, venue, risk, ledger;
      status := WarmingUp;
      cash := if mode == Real then config.realAllocation else config.simCash;
      position, avg, realized := 0, 0, 0;
      lastBar, registered, fills, seen, signals, rejections := None, false, 0, [], [], [];
    }

    method StartUp() returns (r: OpResult)
      modifies this, risk, ledger
      ensures (Self(), Shared()) == Start(old(Self()), old(Shared()))
      ensures var e := StartError(old(Self()), old(Shared())); r == if e.Some? then Failed(e.value) else Done
    {
      if status == Active { return Failed("already started"); }
      if status == Stopped { return Failed("stopped"); }
      r := risk.RegisterContainer(Key(config.workbook, config.symbol, config.strategyId), config.id);
      if r != Done { return; }
      registered := true;
      var amount := if mode == Real then config.realAllocation else config.simCash;
      r := ledger.TakeCapital(config.id, amount, mode);
      if r != Done {
        risk.UnregisterContainer(config.id);
        registered := false;
        return;
      }
      status := Active;
    }

    method UpgradeTo(m: ContainerMode) returns (r: OpResult)
      modifies this, ledger
      ensures (Self(), Shared()) == Upgrade(old(Self()), old(Shared()), m)
      ensures var e := UpgradeError(old(Self()), old(Shared()), m); r == if e.Some? then Failed(e.value) else Done
    {
      if status != Active && status != WarmingUp { return Failed("not running"); }
      if mode == Backtest && m == Paper {
        mode := Paper;
        return Done;
      }
      if mode != Real && m == Real {
        r := ledger.Commit(config.id);
        if r == Done { mode := Real; }
        return;
      }
      r := Failed("invalid upgrade");
    }

    method ApplyToHolding(f: Fill)
      requires f.qty > 0
      modifies this
      ensures Self() == old(Self()).(held := ApplyFill(old(Self()).held, f))
    {
      hide MergeAverage;
      cash := cash + f.cashImpact;
      if f.side == Buy {
        if position == 0 {
          position, avg := f.qty, f.price;
        } else {
          avg := MergeAverage(avg, position, f.price, f.qty);
          position := position + f.qty;
        }
      } else {
        realized := realized + (f.price * f.qty - avg * f.qty - f.fees);
        var left := position - f.qty;
        position := if left < 0 then 0 else left;
        if position == 0 { avg := 0; }
      }
    }

    method BookFill(f: Fill)
      requires f.qty > 0
      modifies this, ledger
      ensures Self() == old(Self()).(held := ApplyFill(old(Self()).held, f), fills := old(fills) + 1,
        seen := old(seen) + [SawFill(f)])
      ensures Shared() == old(Shared()).(ledger := LedgerFill(old(ledger.State()), f))
    {
      hide ApplyFill; hide LedgerFill;
      ApplyToHolding(f);
      fills := fills + 1;
      seen := seen + [SawFill(f)];
      ledger.ApplyFill(f);
    }

    method SubmitAndBook(i: Intent, bar: BarEvent) returns (filled: bool)
      modifies this, venue, ledger
      ensures (Self(), Shared(), filled) == Submitted(old(Self()), old(Shared()), i, bar)
    {
      hide Accepts; hide LedgerFill; hide ApplyFill;
      var fill := venue.Submit(i, bar, config.tradingMode, cash, position, avg);
      filled := fill.Some?;
      if filled {
        AcceptedQty(old(Self()), old(Shared()), i, bar);
        BookFill(fill.value.(container := config.id));
      }
    }

    method FlattenAt(price: int)
      modifies this, venue, ledger
      ensures (Self(), Shared()) == Flatten(old(Self()), old(Shared()), price)
    {
      hide Submitted;
      if position <= 0 || lastBar.None? { return; }
      var bar := lastBar.value.(candle := lastBar.value.candle.(close := price));
      var filled := SubmitAndBook(Intent(config.strategyId, config.symbol, Sell, position, price), bar);
    }

    method StopNow()
      modifies this, risk, ledger
      ensures (Self(), Shared()) == Stop(old(Self()), old(Shared()))
    {
      hide GiveBack; hide Unregister;
      if status == Stopped { return; }
      if registered {
        risk.UnregisterContainer(config.id);
        registered := false;
      }
      var r := ledger.Release(config.id, cash);
      status := Stopped;
    }

    method ForceExitAt(price: int)
      modifies this, venue, risk, ledger
      ensures (Self(), Shared()) == ForceExit(old(Self()), old(Shared()), price)
    {
      hide Flatten; hide Stop;
      if status == Stopped { return; }
      status := Exiting;
      FlattenAt(price);
      StopNow();
    }

    method ExitNow()
      modifies this, venue, risk, ledger
      ensures (Self(), Shared()) == Exit(old(Self()), old(Shared()))
      ensures old(status) != Stopped && old(lastBar).Some? ==> SoldOut(old(Self()), old(Shared()), Self(), Shared())
    {
      hide Flatten; hide Stop; hide SoldOut;
      if status != Stopped && lastBar.Some? { ForcedSales(Self(), Shared()); }
      if status == Stopped { return; }
      status := Exiting;
      if lastBar.Some? { FlattenAt(lastBar.value.candle.close); }
      StopNow();
    }

    method RunAll(bar: BarEvent, intents: seq<Intent>)
      modifies this, venue, risk, ledger
      ensures (Self(), Shared()) == RunIntents(old(Self()), old(Shared()), bar, intents)
    {
      hide Submitted; hide Exit; hide Rejection; hide Normalised; hide ContextOf;
      assert intents[0..] == intents;
      var k := 0;
      while k < |intents|
        invariant k <= |intents|
        invariant RunIntents(Self(), Shared(), bar, intents[k..]) ==
          RunIntents(old(Self()), old(Shared()), bar, intents)
      {
        assert intents[k..][0] == intents[k] && intents[k..][1..] == intents[k + 1..];
        var i := Normalised(Self(), intents[k], bar);
        var no := risk.Check(i, ContextOf(Self()));
        k := k + 1;
        if no.Some? {
          rejections := rejections + [RejectionRecord(bar.candle.ts, no.value)];
        } else {
          var filled := SubmitAndBook(i, bar);
          if filled && config.strategy.wantsExit(seen) {
            ExitNow();
            return;
          }
        }
      }
    }

    method TakeBar(bar: BarEvent)
      modifies this, venue, risk, ledger
      ensures (Self(), Shared()) == OnBar(old(Self()), old(Shared()), bar)
    {
      hide RunIntents;
      if bar.symbol != config.symbol { return; }
      lastBar := Some(bar);
      if status != Active { return; }
      seen := seen + [SawBar(bar, position, cash)];
      var intents := config.strategy.decide(seen);
      signals := signals + if intents == [] then [] else [Signal(bar.candle.ts, |intents|)];
      RunAll(bar, intents);
    }

    method TakeEvent(e: SystemEvent)
      modifies this, venue, risk, ledger
      ensures (Self(), Shared()) == OnSystemEvent(old(Self()), old(Shared()), e)
      ensures old(status) == Active && old(lastBar).Some? && Sells(e, config.tradingMode) ==>
        SoldOut(old(Self()), old(Shared()), Self(), Shared())
    {
      hide Flatten; hide ForceExit; hide Stop; hide OnEvent; hide SoldOut;
      if status == Active && lastBar.Some? { ForcedSales(Self(), Shared()); }
      risk.OnSystemEvent(e);
      if status != Active { return; }
      if e == KillSwitch {
        if lastBar.Some? { ForceExitAt(lastBar.value.candle.close); } else { StopNow(); }
        return;
      }
      if e == MisSquareoffWarning && config.tradingMode == Mis && lastBar.Some? {
        FlattenAt(lastBar.value.candle.close);
      }
    }
  }

  lemma AcceptedQty(c: State, w: World, i: Intent, bar: BarEvent)
    requires Accepts(w.venue, i.side, i.qty, bar.candle.close, c.config.tradingMode, c.held.cash, c.held.position)
    ensures i.qty > 0
  {}
}
