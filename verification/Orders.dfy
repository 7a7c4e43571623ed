/** Bars, orders, fills and system events as the trading engine passes them around. */
module Orders {
  import opened Domain

  type SymbolId = nat
  type StrategyId = nat
  type ContainerId = nat

  const IST_OFFSET_NS := 19_800_000_000_000
  const NANOS_PER_DAY := 86_400_000_000_000
  const NANOS_PER_MINUTE := 60_000_000_000

  type Positive = x: int | x > 0 witness 1

  datatype Side = Buy | Sell
  datatype TradingMode = Mis | Cnc
  datatype ContainerMode = Backtest | Paper | Real

  datatype BarEvent = BarEvent(symbol: SymbolId, candle: Candle)

  datatype Intent = Intent(strategy: StrategyId, symbol: SymbolId, side: Side, qty: int, price: int)

  datatype Fill = Fill(
    orderId: nat, symbol: SymbolId, container: ContainerId, side: Side,
    qty: int, price: int, fees: int, cashImpact: int, ts: Timestamp)

  datatype SystemEvent = SessionStart | SessionEnd | KillSwitch | MisSquareoffWarning

  datatype OpResult = Done | Failed(error: string)

  function IstDay(ts: Timestamp): nat { (ts + IST_OFFSET_NS) / NANOS_PER_DAY }

  function IstMinuteOfDay(ts: Timestamp): nat { (ts + IST_OFFSET_NS) % NANOS_PER_DAY / NANOS_PER_MINUTE }

  /** IST is the UTC clock 330 minutes ahead. */
  lemma IstClock(ts: Timestamp)
    ensures IstMinuteOfDay(ts) == (ts / 60_000_000_000 + 330) % 1440
    ensures IstDay(ts) == (ts / 60_000_000_000 + 330) / 1440
  {
    var m, rest := ts / NANOS_PER_MINUTE, ts % NANOS_PER_MINUTE;
    var day, minute := (m + 330) / 1440, (m + 330) % 1440;
    assert ts + IST_OFFSET_NS == day * NANOS_PER_DAY + (minute * NANOS_PER_MINUTE + rest);
    InDay(ts + IST_OFFSET_NS, day, minute * NANOS_PER_MINUTE + rest);
    InMinute(minute * NANOS_PER_MINUTE + rest, minute, rest);
  }

  lemma InDay(x: int, day: int, r: int)
    requires x == day * NANOS_PER_DAY + r && 0 <= r < NANOS_PER_DAY
    ensures x / NANOS_PER_DAY == day && x % NANOS_PER_DAY == r
  {}

  lemma InMinute(x: int, minute: int, r: int)
    requires x == minute * NANOS_PER_MINUTE + r && 0 <= r < NANOS_PER_MINUTE
    ensures x / NANOS_PER_MINUTE == minute
  {}

  predicate RegularHours(ts: Timestamp) {
    9 * 60 + 15 <= IstMinuteOfDay(ts) < 15 * 60 + 30
  }

  /** Average entry price after adding qty shares at price, rounded toward zero. */
  function MergeAverage(avg: int, position: int, price: int, qty: int): int
    requires position + qty > 0
  {
    TDiv(avg * position + price * qty, position + qty)
  }
}
