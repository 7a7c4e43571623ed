/** Fees and the simulated venue: slippage, leveraged margin and the cash effect of a fill. */
module Exchange {
  import opened Domain
  import opened Orders

  datatype CostRates = CostRates(sttSell: int, stampBuy: int, sebi: int, brokerage: int, gstPercent: int)

  /** 0.025% STT, 0.003% stamp and 0.0001% SEBI in millionths; Rs 20 brokerage; 18% GST on it. */
  const DEFAULT_RATES := CostRates(250, 30, 1, 2000, 18)

  /** A millionths rate of a notional, rounded half up. */
  function Millionths(notional: int, rate: int): int {
    if notional <= 0 || rate <= 0 then 0 else (notional * rate + 500_000) / 1_000_000
  }

  function Gst(r: CostRates): int { TDiv(r.brokerage * r.gstPercent + 50, 100) }

  function BuyFees(r: CostRates, price: int, qty: int): int {
    Millionths(price * qty, r.stampBuy) + Millionths(price * qty, r.sebi) + r.brokerage + Gst(r)
  }

  function SellFees(r: CostRates, price: int, qty: int): int {
    Millionths(price * qty, r.sttSell) + Millionths(price * qty, r.sebi) + r.brokerage + Gst(r)
  }

  datatype VenueConfig = VenueConfig(rates: CostRates, slippage: int, misLeverage: Positive) {
    function Leverage(mode: TradingMode): Positive {
      if mode == Mis then misLeverage else 1
    }
  }

  const DEFAULT_VENUE := VenueConfig(DEFAULT_RATES, 1, 5)

  /** The price an order executes at: worse than the close by the slippage, a sell never below zero. */
  function FillPrice(v: VenueConfig, side: Side, close: int): int {
    if side == Buy then close + v.slippage else Max(0, close - v.slippage)
  }

  function Fees(v: VenueConfig, side: Side, price: int, qty: int): int {
    if side == Buy then BuyFees(v.rates, price, qty) else SellFees(v.rates, price, qty)
  }

  /** The margin a notional blocks. */
  function Margin(v: VenueConfig, mode: TradingMode, price: int, qty: int): int
  {
    TDiv(price * qty, v.Leverage(mode))
  }

  predicate Accepts(v: VenueConfig, side: Side, qty: int, close: int, mode: TradingMode, cash: int, position: int)
  {
    var p := FillPrice(v, side, close);
    && qty > 0
    && (side == Sell ==> 0 < position && qty <= position)
    && (side == Buy ==> cash >= Margin(v, mode, p, qty) + Fees(v, side, p, qty))
  }

  /** What a fill does to cash: a buy pays margin and fees, a sell releases the margin at the entry
      price and realises the difference. */
  function CashImpact(v: VenueConfig, side: Side, qty: int, close: int, mode: TradingMode, avg: int): int
  {
    var p := FillPrice(v, side, close);
    if side == Buy then -(Margin(v, mode, p, qty) + Fees(v, side, p, qty))
    else
      var entry := if avg > 0 then avg else p;
      Margin(v, mode, entry, qty) + (p * qty - entry * qty - Fees(v, side, p, qty))
  }

  function Execution(v: VenueConfig, orderId: nat, intent: Intent, bar: BarEvent, mode: TradingMode, avg: int): Fill
  {
    var p := FillPrice(v, intent.side, bar.candle.close);
    Fill(orderId, intent.symbol, 0, intent.side, intent.qty, p, Fees(v, intent.side, p, intent.qty),
         CashImpact(v, intent.side, intent.qty, bar.candle.close, mode, avg), bar.candle.ts)
  }

  // ---------------------------------------------------------------- the terms in plain figures

  /** Millionths of a paisa to whole paise, half up. */
  function Paise(millionths: int): int {
    if millionths <= 0 then 0 else (millionths + 500_000) / 1_000_000
  }

  /** One paisa worse than the close, never below zero; Rs 23.60 plus 31 millionths of a purchase or 251
      millionths of a sale. */
  predicate Charged(side: Side, qty: int, price: int, fees: int, close: int) {
    && qty > 0
    && price == (if side == Buy then close + 1 else Max(0, close - 1))
    && fees == 2360 + Paise(price * qty) + Paise((if side == Buy then 30 else 250) * (price * qty))
  }

  lemma ExecutionTerms(orderId: nat, i: Intent, bar: BarEvent, mode: TradingMode, avg: int)
    requires i.qty > 0
    ensures var f := Execution(DEFAULT_VENUE, orderId, i, bar, mode, avg);
      Charged(f.side, f.qty, f.price, f.fees, bar.candle.close) && f.ts == bar.candle.ts
  {
    hide CashImpact;
    assert Gst(DEFAULT_RATES) == 360;
  }

  class SimulatedExchange {
    const config: VenueConfig
    var nextOrderId: nat

    constructor (config: VenueConfig)
      ensures this.config == config && nextOrderId == 1
    {
      this.config := config;
      nextOrderId := 1;
    }

    /** Fill the order at once or refuse it; only a fill consumes an order id. */
    method Submit(intent: Intent, bar: BarEvent, mode: TradingMode, cash: int, position: int, avg: int)
      returns (fill: Option<Fill>)
      modifies this
      ensures fill ==
        if Accepts(config, intent.side, intent.qty, bar.candle.close, mode, cash, position)
        then Some(Execution(config, old(nextOrderId), intent, bar, mode, avg)) else None
      ensures nextOrderId == old(nextOrderId) + if fill.Some? then 1 else 0
      ensures intent.side == Sell ==> (fill.Some? <==> 0 < intent.qty <= position)
      ensures intent.side == Buy ==>
        var p := bar.candle.close + config.slippage;
        (fill.Some? <==>
          && intent.qty > 0
          && cash >= TDiv(p * intent.qty, config.Leverage(mode)) + BuyFees(config.rates, p, intent.qty))
    {
      if intent.qty <= 0 { return None; }
      var price := FillPrice(config, intent.side, bar.candle.close);
      if intent.side == Sell && position <= 0 { return None; }
      if intent.side == Sell && intent.qty > position { return None; }
      var leverage := config.Leverage(mode);
      var required := TDiv(price * intent.qty, leverage);
      var fees := Fees(config, intent.side, price, intent.qty);
      if intent.side == Buy && cash < required + fees { return None; }
      var impact;
      if intent.side == Buy {
        impact := -(required + fees);
      } else {
        var entry := if avg > 0 then avg else price;
        var released := TDiv(entry * intent.qty, leverage);
        impact := released + (price * intent.qty - entry * intent.qty - fees);
      }
      fill := Some(Fill(nextOrderId, intent.symbol, 0, intent.side, intent.qty, price, fees, impact, bar.candle.ts));
      nextOrderId := nextOrderId + 1;
    }
  }
}
