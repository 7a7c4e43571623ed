/** The backtest loop: one strategy, one symbol, a ring between history and strategy, online drawdown
    and daily snapshots. */
module Backtesting {
  import opened Domain
  import opened Orders
  import opened Exchange
  import opened Container
  import opened Ring

  const RING_CAPACITY := 1024

  datatype Book = Book(
    cash: int, position: nat, avg: int, entryFees: int, entryTs: Timestamp, realized: int, fees: int,
    fills: nat, trips: nat, wins: nat, holdNs: int)

  function NewBook(cash: int): Book { Book(cash, 0, 0, 0, 0, 0, 0, 0, 0, 0, 0) }

  /** Any sell ends the round trip: it books the fees of the whole entry and leaves the book flat. */
  function ApplyToBook(b: Book, f: Fill): Book
    requires f.qty > 0
  {
    var c := b.(cash := b.cash + f.cashImpact, fees := b.fees + f.fees, fills := b.fills + 1);
    if f.side == Buy then
      if b.position == 0 then c.(position := f.qty, avg := f.price, entryFees := f.fees, entryTs := f.ts)
      else c.(position := b.position + f.qty, avg := MergeAverage(b.avg, b.position, f.price, f.qty),
        entryFees := b.entryFees + f.fees)
    else
      var pnl := f.price * f.qty - b.avg * f.qty - f.fees - b.entryFees;
      c.(position := 0, avg := 0, entryFees := 0, entryTs := 0,
         realized := b.realized + pnl, trips := b.trips + 1, wins := b.wins + (if pnl > 0 then 1 else 0),
         holdNs := b.holdNs + (if b.entryTs != 0 then f.ts - b.entryTs else 0))
  }

  /** Cash plus the market value of the position less what was lent for it. */
  function MarkedEquity(b: Book, close: int, mode: TradingMode): int {
    if b.position == 0 then b.cash
    else
      var leverage := if mode == Mis then 5 else 1;
      b.cash + close * b.position - TDiv(b.avg * b.position * (leverage - 1), leverage)
  }

  datatype Order = Order(symbol: SymbolId, mode: TradingMode, start: int, strategy: Strategy)

  datatype LoggedFill = LoggedFill(ts: Timestamp, side: Side, price: int, qty: int, fees: int)

  /** What the fills so far say about rounding: margin paid for the open position, the sum over closed
      trips of margin released less margin paid, and whether every trip was one buy sold whole. */
  datatype Trail = Trail(paid: int, drift: int, clean: bool)

  function Trailed(t: Trail, b: Book, f: Fill, mode: TradingMode): Trail {
    if f.side == Buy then Trail(t.paid + Margin(DEFAULT_VENUE, mode, f.price, f.qty), t.drift,
      t.clean && b.position == 0)
    else Trail(0, t.drift + Margin(DEFAULT_VENUE, mode, b.avg, f.qty) - t.paid, t.clean && f.qty == b.position)
  }

  datatype Sim = Sim(book: Book, nextOrder: nat, seen: seq<Seen>, log: seq<LoggedFill>, trail: Trail)

  function Submit(o: Order, s: Sim, i: Intent, bar: BarEvent): Sim {
    if !Accepts(DEFAULT_VENUE, i.side, i.qty, bar.candle.close, o.mode, s.book.cash, s.book.position) then s
    else
      var f := Execution(DEFAULT_VENUE, s.nextOrder, i, bar, o.mode, s.book.avg);
      Sim(ApplyToBook(s.book, f), s.nextOrder + 1, s.seen + [SawFill(f)],
          s.log + [LoggedFill(f.ts, f.side, f.price, f.qty, f.fees)], Trailed(s.trail, s.book, f, o.mode))
  }

  function SubmitAll(o: Order, s: Sim, intents: seq<Intent>, bar: BarEvent): Sim
    decreases |intents|
  {
    if intents == [] then s else SubmitAll(o, Submit(o, s, intents[0], bar), intents[1..], bar)
  }

  function CloseOut(o: Order, s: Sim, bar: BarEvent): Sim {
    if s.book.position == 0 then s else Submit(o, s, Intent(0, o.symbol, Sell, s.book.position, 0), bar)
  }

  datatype Marks = Marks(realized: int, fees: int, fills: int, trips: int, wins: int)

  datatype Daily = Daily(ts: Timestamp, equity: int, marks: Marks)

  function MarksOf(b: Book): Marks { Marks(b.realized, b.fees, b.fills, b.trips, b.wins) }

  function Minus(a: Marks, b: Marks): Marks {
    Marks(a.realized - b.realized, a.fees - b.fees, a.fills - b.fills, a.trips - b.trips, a.wins - b.wins)
  }

  function Plus(a: Marks, b: Marks): Marks {
    Marks(a.realized + b.realized, a.fees + b.fees, a.fills + b.fills, a.trips + b.trips, a.wins + b.wins)
  }

  datatype Loop = Loop(sim: Sim, last: Option<BarEvent>, equity: seq<int>, peak: int, maxDrop: int, daily: seq<Daily>,
    day0: Marks)

  function Begin(o: Order): Loop {
    Loop(Sim(NewBook(o.start), 1, [], [], Trail(0, 0, true)), None, [], o.start, 0, [], Marks(0, 0, 0, 0, 0))
  }

  function UtcDay(bar: BarEvent): nat { bar.candle.ts / NANOS_PER_DAY }

  /** Record what happened since the previous snapshot. */
  function CloseDay(o: Order, l: Loop, bar: BarEvent): Loop {
    var now := MarksOf(l.sim.book);
    l.(daily := l.daily + [Daily(bar.candle.ts, MarkedEquity(l.sim.book, bar.candle.close, o.mode),
      Minus(now, l.day0))], day0 := now)
  }

  function EndDay(o: Order, l: Loop, bar: BarEvent): Loop {
    CloseDay(o, l.(sim := CloseOut(o, l.sim, bar)), bar)
  }

  function Decide(o: Order, s: Sim, bar: BarEvent): Sim {
    var seen := s.seen + [SawBar(bar, s.book.position, s.book.cash)];
    var s1 := SubmitAll(o, s.(seen := seen), o.strategy.decide(seen), bar);
    if o.strategy.wantsExit(s1.seen) then CloseOut(o, s1, bar) else s1
  }

  function Sampled(o: Order, l: Loop, bar: BarEvent): Loop {
    var eq := MarkedEquity(l.sim.book, bar.candle.close, o.mode);
    var peak := Max(l.peak, eq);
    l.(equity := l.equity + [eq], peak := peak, maxDrop := Max(l.maxDrop, peak - eq), last := Some(bar))
  }

  function TakeOne(o: Order, l: Loop, bar: BarEvent): Loop {
    var l1 := if l.last.Some? && o.mode == Mis && UtcDay(bar) != UtcDay(l.last.value) then EndDay(o, l, l.last.value)
      else l;
    Sampled(o, l1.(sim := Decide(o, l1.sim, bar)), bar)
  }

  /** The loop after the first n bars. */
  function Processed(o: Order, bars: seq<BarEvent>, n: nat): Loop
    requires n <= |bars|
  {
    if n == 0 then Begin(o) else TakeOne(o, Processed(o, bars, n - 1), bars[n - 1])
  }

  function Finished(o: Order, l: Loop): Loop {
    if l.last.None? then l
    else
      var bar := l.last.value;
      var s := CloseOut(o, l.sim, bar);
      var equity := if l.equity == [] then []
        else l.equity[|l.equity| - 1 := MarkedEquity(s.book, bar.candle.close, o.mode)];
      CloseDay(o, l.(sim := s, equity := equity), bar)
  }

  datatype Result = Result(
    start: int, ending: int, realized: int, fees: int, maxDrop: int, fills: nat, trips: nat, wins: nat,
    holdNs: int, bars: nat, daily: seq<Daily>, log: seq<LoggedFill>)

  function ResultOf(o: Order, l: Loop, bars: nat): Result {
    var b := l.sim.book;
    Result(o.start, if l.equity == [] then b.cash else l.equity[|l.equity| - 1], b.realized, b.fees, l.maxDrop,
           b.fills, b.trips, b.wins, b.holdNs, bars, l.daily, l.sim.log)
  }

  function Backtested(o: Order, bars: seq<BarEvent>): Result {
    ResultOf(o, Finished(o, Processed(o, bars, |bars|)), |bars|)
  }

  // ---------------------------------------------------------------- drawdown

  /** The largest fall from a sample to the same or a later one. */
  ghost predicate IsMaxDrop(samples: seq<int>, drop: int) {
    && (forall i, j :: 0 <= i <= j < |samples| ==> samples[i] - samples[j] <= drop)
    && (exists i, j :: 0 <= i <= j < |samples| && samples[i] - samples[j] == drop)
  }

  ghost predicate IsPeak(samples: seq<int>, peak: int) {
    && (forall i :: 0 <= i < |samples| ==> samples[i] <= peak)
    && (exists i :: 0 <= i < |samples| && samples[i] == peak)
  }

  lemma DropMore(samples: seq<int>, peak: int, drop: int, x: int)
    requires samples != [] && IsPeak(samples, peak) && IsMaxDrop(samples, drop)
    ensures IsPeak(samples + [x], Max(peak, x)) && IsMaxDrop(samples + [x], Max(drop, Max(peak, x) - x))
  {
    var more := samples + [x];
    var p :| 0 <= p < |samples| && samples[p] == peak;
    var i, j :| 0 <= i <= j < |samples| && samples[i] - samples[j] == drop;
    assert more[p] == peak && more[|samples|] == x && more[i] - more[j] == drop;
    assert more[p] - more[|samples|] == peak - x;
    assert more[|samples|] - more[|samples|] == 0;
  }

  /** The samples that drawdown looks at: the starting cash and the equity after each bar, before the
      final sale. */
  function Samples(o: Order, l: Loop): seq<int> { [o.start] + l.equity }

  /** The online maximum drawdown is the brute-force maximum over all pairs of samples. */
  lemma {:induction false} DrawdownIsMaximum(o: Order, bars: seq<BarEvent>, n: nat)
    requires n <= |bars|
    ensures var l := Processed(o, bars, n);
      |l.equity| == n && IsPeak(Samples(o, l), l.peak) && IsMaxDrop(Samples(o, l), l.maxDrop)
  {
    hide Decide; hide CloseOut; hide MarkedEquity; hide IsPeak; hide IsMaxDrop;
    if n == 0 {
      OneSample(o.start);
      assert Samples(o, Begin(o)) == [o.start];
    } else {
      DrawdownIsMaximum(o, bars, n - 1);
      var l, m := Processed(o, bars, n - 1), Processed(o, bars, n);
      var x := m.equity[n - 1];
      DropMore(Samples(o, l), l.peak, l.maxDrop, x);
      assert m.equity == l.equity + [x];
      assert Samples(o, m) == Samples(o, l) + [x];
    }
  }

  lemma OneSample(x: int)
    ensures IsPeak([x], x) && IsMaxDrop([x], 0)
  {
    assert [x][0] == x && [x][0] - [x][0] == 0;
  }

  // ---------------------------------------------------------------- daily snapshots

  function Total(daily: seq<Daily>): Marks {
    if daily == [] then Marks(0, 0, 0, 0, 0) else Plus(Total(daily[..|daily| - 1]), daily[|daily| - 1].marks)
  }

  lemma TotalMore(daily: seq<Daily>, d: Daily)
    ensures Total(daily + [d]) == Plus(Total(daily), d.marks)
  {
    assert (daily + [d])[..|daily|] == daily;
  }

  lemma CloseDayTelescopes(o: Order, l: Loop, bar: BarEvent)
    requires Total(l.daily) == l.day0
    ensures var m := CloseDay(o, l, bar); Total(m.daily) == m.day0 == MarksOf(l.sim.book) && m.sim == l.sim
  {
    hide MarkedEquity; hide Total;
    TotalMore(l.daily, Daily(bar.candle.ts, MarkedEquity(l.sim.book, bar.candle.close, o.mode),
      Minus(MarksOf(l.sim.book), l.day0)));
  }

  lemma {:induction false} DaysTelescope(o: Order, bars: seq<BarEvent>, n: nat)
    requires n <= |bars|
    ensures var l := Processed(o, bars, n);
      Total(l.daily) == l.day0 && l.last == if n == 0 then None else Some(bars[n - 1])
  {
    hide Decide; hide CloseOut; hide CloseDay; hide MarkedEquity; hide Total;
    if n == 0 {
      assert Total([]) == Marks(0, 0, 0, 0, 0) by { TotalEmpty(); }
    } else {
      DaysTelescope(o, bars, n - 1);
      var l := Processed(o, bars, n - 1);
      if l.last.Some? { CloseDayTelescopes(o, l.(sim := CloseOut(o, l.sim, l.last.value)), l.last.value); }
      CloseDayLeaves(o, l);
    }
  }

  lemma TotalEmpty()
    ensures Total([]) == Marks(0, 0, 0, 0, 0)
  {}

  lemma CloseDayLeaves(o: Order, l: Loop)
    ensures forall bar :: CloseDay(o, l, bar).last == l.last
  {}

  // ---------------------------------------------------------------- the book agrees with the cash

  ghost predicate PricesNonNegative(bars: seq<BarEvent>) {
    forall i :: 0 <= i < |bars| ==> bars[i].candle.close >= 0
  }

  /** Cash, the margin paid for the open position and its fees make up the starting capital, the
      realised P&L and the rounding drift; without multi-buy trips or partial sells there is no drift. */
  ghost predicate Reconciled(o: Order, s: Sim) {
    var b, t := s.book, s.trail;
    && b.cash + t.paid + b.entryFees == o.start + b.realized + t.drift
    && (b.position == 0 ==> t.paid == 0 && b.entryFees == 0 && b.avg == 0)
    && (b.position > 0 ==> b.avg > 0)
    && (t.clean ==> t.drift == 0 && t.paid == Margin(DEFAULT_VENUE, o.mode, b.avg, b.position))
  }

  lemma SubmitReconciles(o: Order, s: Sim, i: Intent, bar: BarEvent)
    requires Reconciled(o, s) && bar.candle.close >= 0
    ensures Reconciled(o, Submit(o, s, i, bar))
  {
    hide Fees; hide Margin;
    var b := s.book;
    NoMargin(o.mode, b.avg);
    if Accepts(DEFAULT_VENUE, i.side, i.qty, bar.candle.close, o.mode, b.cash, b.position) {
      if i.side == Buy && b.position > 0 { AverageStaysPositive(b.avg, b.position, bar.candle.close + 1, i.qty); }
      NoMargin(o.mode, 0);
    }
  }

  lemma NoMargin(mode: TradingMode, avg: int)
    ensures Margin(DEFAULT_VENUE, mode, avg, 0) == 0
  {
    assert avg * 0 == 0;
  }

  lemma AverageStaysPositive(avg: int, position: nat, price: int, qty: int)
    requires avg > 0 && position > 0 && price > 0 && qty > 0
    ensures MergeAverage(avg, position, price, qty) > 0
  {
    var total, shares := avg * position + price * qty, position + qty;
    assert avg * position >= position && price * qty >= qty;
    assert total >= shares;
    Holdings.AtLeastOne(total, shares);
  }

  lemma {:induction false} SubmitAllReconciles(o: Order, s: Sim, intents: seq<Intent>, bar: BarEvent)
    requires Reconciled(o, s) && bar.candle.close >= 0
    ensures Reconciled(o, SubmitAll(o, s, intents, bar))
    decreases |intents|
  {
    hide Reconciled; hide Submit;
    if intents != [] {
      SubmitReconciles(o, s, intents[0], bar);
      SubmitAllReconciles(o, Submit(o, s, intents[0], bar), intents[1..], bar);
    }
  }

  /** The venue always takes a sale of the whole position, and the book is flat afterwards. */
  lemma CloseOutReconciles(o: Order, s: Sim, bar: BarEvent)
    ensures CloseOut(o, s, bar).book.position == 0
    ensures Reconciled(o, s) && bar.candle.close >= 0 ==> Reconciled(o, CloseOut(o, s, bar))
  {
    hide Reconciled; hide Fees; hide Margin; hide CashImpact; hide Trailed;
    if Reconciled(o, s) && bar.candle.close >= 0 {
      SubmitReconciles(o, s, Intent(0, o.symbol, Sell, s.book.position, 0), bar);
    }
  }

  lemma DecideReconciles(o: Order, s: Sim, bar: BarEvent)
    requires Reconciled(o, s) && bar.candle.close >= 0
    ensures Reconciled(o, Decide(o, s, bar))
  {
    hide SubmitAll; hide CloseOut; hide Margin;
    var seen := s.seen + [SawBar(bar, s.book.position, s.book.cash)];
    SubmitAllReconciles(o, s.(seen := seen), o.strategy.decide(seen), bar);
    CloseOutReconciles(o, SubmitAll(o, s.(seen := seen), o.strategy.decide(seen), bar), bar);
  }

  lemma {:induction false} AlwaysReconciled(o: Order, bars: seq<BarEvent>, n: nat)
    requires PricesNonNegative(bars) && n <= |bars|
    ensures Reconciled(o, Processed(o, bars, n).sim)
  {
    hide Reconciled; hide Decide; hide CloseOut; hide MarkedEquity;
    if n == 0 {
      BeginReconciled(o);
    } else {
      AlwaysReconciled(o, bars, n - 1);
      DaysTelescope(o, bars, n - 1);
      var l := Processed(o, bars, n - 1);
      if l.last.Some? {
        CloseOutReconciles(o, l.sim, l.last.value);
        DecideReconciles(o, CloseOut(o, l.sim, l.last.value), bars[n - 1]);
      }
      DecideReconciles(o, l.sim, bars[n - 1]);
    }
  }

  lemma BeginReconciled(o: Order)
    ensures Reconciled(o, Begin(o).sim)
  {
    NoMargin(o.mode, 0);
  }

  /** Over any bars and any strategy: every bar gives one equity sample, the maximum drawdown is the
      brute-force one of the samples taken before the final sale, the daily snapshots add up to the totals,
      and the run ends flat. */
  lemma BacktestTotals(o: Order, bars: seq<BarEvent>)
    ensures var r := Backtested(o, bars);
      && IsMaxDrop([o.start] + Processed(o, bars, |bars|).equity, r.maxDrop)
      && Total(r.daily) == Marks(r.realized, r.fees, r.fills, r.trips, r.wins)
      && Finished(o, Processed(o, bars, |bars|)).sim.book.position == 0
      && r.ending == Finished(o, Processed(o, bars, |bars|)).sim.book.cash
  {
    hide TakeOne; hide CloseOut; hide CloseDay; hide IsMaxDrop; hide Total;
    var l := Processed(o, bars, |bars|);
    DrawdownIsMaximum(o, bars, |bars|);
    DaysTelescope(o, bars, |bars|);
    FinishTotals(o, l, bars);
  }

  lemma FinishTotals(o: Order, l: Loop, bars: seq<BarEvent>)
    requires Total(l.daily) == l.day0 && |l.equity| == |bars| && (l.last.None? <==> bars == [])
    requires l.last.None? ==> l == Begin(o)
    ensures var f := Finished(o, l);
      && f.maxDrop == l.maxDrop && |f.equity| == |l.equity|
      && Total(f.daily) == MarksOf(f.sim.book) && f.sim.book.position == 0
      && (if f.equity == [] then f.sim.book.cash else f.equity[|f.equity| - 1]) == f.sim.book.cash
  {
    hide CloseOut; hide Total;
    if l.last.Some? {
      var bar := l.last.value;
      CloseOutReconciles(o, l.sim, bar);
      var s := CloseOut(o, l.sim, bar);
      CloseDayTelescopes(o,
        l.(sim := s, equity := l.equity[|l.equity| - 1 := MarkedEquity(s.book, bar.candle.close, o.mode)]), bar);
    }
  }

  // ---------------------------------------------------------------- drawdown of the reported curve

  lemma MaxDropUnique(samples: seq<int>, a: int, b: int)
    requires IsMaxDrop(samples, a) && IsMaxDrop(samples, b)
    ensures a == b
  {
    var i, j :| 0 <= i <= j < |samples| && samples[i] - samples[j] == a;
    var k, m :| 0 <= k <= m < |samples| && samples[k] - samples[m] == b;
    assert samples[i] - samples[j] <= b && samples[k] - samples[m] <= a;
  }

  /** The equity curve a run ends with: the last sample is replaced by the equity after the final sale. */
  function FinalCurve(o: Order, bars: seq<BarEvent>): seq<int> {
    [o.start] + Finished(o, Processed(o, bars, |bars|)).equity
  }

  lemma FinalCurveIs(o: Order, bars: seq<BarEvent>)
    requires bars != []
    ensures var (before, last) := (Processed(o, bars, |bars| - 1), Processed(o, bars, |bars|));
      && |last.equity| == |bars|
      && Samples(o, last) == Samples(o, before) + [last.equity[|bars| - 1]]
      && FinalCurve(o, bars) == Samples(o, before) + [Backtested(o, bars).ending]
      && Backtested(o, bars).maxDrop == last.maxDrop
  {
    hide Decide; hide CloseOut; hide MarkedEquity; hide IsPeak; hide IsMaxDrop;
    var n := |bars|;
    DrawdownIsMaximum(o, bars, n - 1);
    DrawdownIsMaximum(o, bars, n);
    var before, last := Processed(o, bars, n - 1), Processed(o, bars, n);
    assert last.equity == before.equity + [last.equity[n - 1]];
    var final := Finished(o, last).equity;
    assert final == before.equity + [final[n - 1]];
  }

  /** The loop does not look at the equity after the final sale. With the peak and the drawdown before the
      last bar, the reported drawdown is the maximum over the reported curve if and only if the final sale
      leaves the last sample as it was, or neither value of it falls further below the peak than before. */
  lemma ReportedDrawdownIff(o: Order, bars: seq<BarEvent>)
    requires bars != []
    ensures |Processed(o, bars, |bars|).equity| == |bars|
    ensures var (r, before) := (Backtested(o, bars), Processed(o, bars, |bars| - 1));
      var sample := Processed(o, bars, |bars|).equity[|bars| - 1];
      IsMaxDrop(FinalCurve(o, bars), r.maxDrop) <==>
        r.ending == sample || (before.peak - sample <= before.maxDrop && before.peak - r.ending <= before.maxDrop)
  {
    hide Processed; hide Backtested; hide FinalCurve; hide IsPeak; hide IsMaxDrop; hide Finished;
    var (r, before, last) := (Backtested(o, bars), Processed(o, bars, |bars| - 1), Processed(o, bars, |bars|));
    FinalCurveIs(o, bars);
    DrawdownIsMaximum(o, bars, |bars| - 1);
    DrawdownIsMaximum(o, bars, |bars|);
    var sample := last.equity[|bars| - 1];
    DropMore(Samples(o, before), before.peak, before.maxDrop, sample);
    DropMore(Samples(o, before), before.peak, before.maxDrop, r.ending);
    MaxDropUnique(Samples(o, last), last.maxDrop, Max(before.maxDrop, Max(before.peak, sample) - sample));
    var whole := Max(before.maxDrop, Max(before.peak, r.ending) - r.ending);
    DropNotNegative(Samples(o, before), before.maxDrop);
    if IsMaxDrop(FinalCurve(o, bars), r.maxDrop) { MaxDropUnique(FinalCurve(o, bars), r.maxDrop, whole); }
  }

  lemma DropNotNegative(samples: seq<int>, drop: int)
    requires samples != [] && IsMaxDrop(samples, drop)
    ensures drop >= 0
  {
    assert samples[0] - samples[0] <= drop;
  }

  /** A run that is flat after its last bar, and a run without bars, report the drawdown of their curve. */
  lemma FlatRunsReportDrawdown(o: Order, bars: seq<BarEvent>)
    requires Processed(o, bars, |bars|).sim.book.position == 0
    ensures IsMaxDrop(FinalCurve(o, bars), Backtested(o, bars).maxDrop)
  {
    hide Decide; hide IsMaxDrop; hide IsPeak;
    if bars == [] {
      OneSample(o.start);
      assert FinalCurve(o, bars) == [o.start];
    } else {
      DaysTelescope(o, bars, |bars|);
      FinalCurveIs(o, bars);
      ReportedDrawdownIff(o, bars);
      LastSample(o, bars);
    }
  }

  /** The last sample is the equity after the last bar. */
  lemma LastSample(o: Order, bars: seq<BarEvent>)
    requires bars != []
    ensures var l := Processed(o, bars, |bars|);
      && |l.equity| > 0 && l.last == Some(bars[|bars| - 1])
      && l.equity[|l.equity| - 1] == MarkedEquity(l.sim.book, bars[|bars| - 1].candle.close, o.mode)
  {
    hide Decide; hide EndDay; hide MarkedEquity; hide UtcDay;
  }

  lemma TenBought(o: Order, s: Sim, bar: BarEvent)
    requires o.mode == Mis && bar.candle.close == 1000 && s.book == NewBook(1_000_000)
    ensures var b := Submit(o, s, Intent(0, o.symbol, Buy, 10, 1000), bar).book;
      && b.cash == 995_638 && b.position == 10 && b.avg == 1001 && MarkedEquity(b, 1000, Mis) == 997_630
      && b.fees == 2360 && b.entryFees == 2360 && b.fills == 1 && b.trips == 0 && b.wins == 0
  {
    assert Fees(DEFAULT_VENUE, Buy, 1001, 10) == 2360 && Margin(DEFAULT_VENUE, Mis, 1001, 10) == 2002;
    hide Fees; hide Margin;
  }

  lemma TenSold(o: Order, s: Sim, bar: BarEvent)
    requires o.mode == Mis && bar.candle.close == 1000
    requires s.book.cash == 995_638 && s.book.position == 10 && s.book.avg == 1001
    requires s.book.entryFees == 2360
    ensures var b := CloseOut(o, s, bar).book;
      && MarkedEquity(b, 1000, Mis) == 995_258 && b.fees == s.book.fees + 2362 && b.fills == s.book.fills + 1
      && b.trips == s.book.trips + 1 && b.wins == s.book.wins
  {
    assert Fees(DEFAULT_VENUE, Sell, 999, 10) == 2362 && Margin(DEFAULT_VENUE, Mis, 1001, 10) == 2002;
    hide Fees; hide Margin;
  }

  /** Ten shares bought on a single bar: the final sale costs more than the drawdown that is reported. */
  lemma LossAboveDrawdown(ts: Timestamp)
    ensures var bar := BarEvent(1, Candle(ts, 1000, 1000, 1000, 1000, 0));
      var buyer := Strategy((seen: seq<Seen>) => [Intent(0, 1, Buy, 10, 1000)], (seen: seq<Seen>) => false);
      var o := Order(1, Mis, 1_000_000, buyer);
      var r := Backtested(o, [bar]);
      && r.maxDrop == 2370 && o.start - r.ending == 4742 && !IsMaxDrop(FinalCurve(o, [bar]), r.maxDrop)
      && r.fees == 4722 && r.fills == 2 && r.trips == 1 && r.wins == 0
  {
    hide Submit; hide MarkedEquity; hide IsMaxDrop; hide CloseOut;
    var bar := BarEvent(1, Candle(ts, 1000, 1000, 1000, 1000, 0));
    var buyer := Strategy((seen: seq<Seen>) => [Intent(0, 1, Buy, 10, 1000)], (seen: seq<Seen>) => false);
    var o := Order(1, Mis, 1_000_000, buyer);
    var s0 := Begin(o).sim.(seen := [SawBar(bar, 0, 1_000_000)]);
    var s1 := Submit(o, s0, Intent(0, 1, Buy, 10, 1000), bar);
    TenBought(o, s0, bar);
    TenSold(o, s1, bar);
    OneIntent(o, s0, Intent(0, 1, Buy, 10, 1000), bar);
    assert Begin(o).sim.seen + [SawBar(bar, 0, 1_000_000)] == [SawBar(bar, 0, 1_000_000)];
    assert Decide(o, Begin(o).sim, bar) == s1;
    var l := Processed(o, [bar], 1);
    assert Processed(o, [bar], 0) == Begin(o);
    assert l == TakeOne(o, Begin(o), bar) && l.equity == [997_630] && l.maxDrop == 2370 && l.sim == s1;
    assert Finished(o, l).equity == [995_258];
    FinalCurveIs(o, [bar]);
    ReportedDrawdownIff(o, [bar]);
  }

  lemma OneIntent(o: Order, s: Sim, i: Intent, bar: BarEvent)
    ensures SubmitAll(o, s, [i], bar) == Submit(o, s, i, bar)
  {
    hide Submit;
    assert [i][1..] == [];
  }

  /** The reported P&L explains the ending equity to the paisa, up to the rounding drift of multi-buy
      trips and partial sells; without those the two agree exactly. */
  lemma EndingEquity(o: Order, bars: seq<BarEvent>)
    requires PricesNonNegative(bars)
    ensures var r := Backtested(o, bars);
      var t := Finished(o, Processed(o, bars, |bars|)).sim.trail;
      r.ending == o.start + r.realized + t.drift && (t.clean ==> r.ending == o.start + r.realized)
  {
    hide TakeOne; hide CloseOut; hide CloseDay; hide IsMaxDrop; hide Total; hide Margin;
    var l := Processed(o, bars, |bars|);
    AlwaysReconciled(o, bars, |bars|);
    DaysTelescope(o, bars, |bars|);
    if bars != [] { CloseOutReconciles(o, l.sim, bars[|bars| - 1]); }
    BacktestTotals(o, bars);
    CloseDaySim(o, l);
  }

  lemma CloseDaySim(o: Order, l: Loop)
    ensures Finished(o, l).sim == if l.last.None? then l.sim else CloseOut(o, l.sim, l.last.value)
  {}

  /** Timestamps of the bars among the first n that are followed by a bar of another day. */
  function DayCloses(bars: seq<BarEvent>, n: nat): seq<Timestamp>
    requires n <= |bars|
  {
    if n <= 1 then []
    else
      var day, next := bars[n - 2].candle.ts / 86_400_000_000_000, bars[n - 1].candle.ts / 86_400_000_000_000;
      DayCloses(bars, n - 1) + if day != next then [bars[n - 2].candle.ts] else []
  }

  function Times(daily: seq<Daily>): (r: seq<Timestamp>)
    ensures |r| == |daily| && forall i :: 0 <= i < |r| ==> r[i] == daily[i].ts
  {
    seq(|daily|, i requires 0 <= i < |daily| => daily[i].ts)
  }

  lemma {:induction false} DailyAfter(o: Order, bars: seq<BarEvent>, n: nat)
    requires n <= |bars|
    ensures Times(Processed(o, bars, n).daily) == if o.mode == Mis then DayCloses(bars, n) else []
  {
    hide Decide; hide CloseOut; hide MarkedEquity; hide Total;
    if n > 0 {
      DailyAfter(o, bars, n - 1);
      DaysTelescope(o, bars, n - 1);
    }
  }

  /** An intraday run has one snapshot for each run of bars of the same day, taken at its last bar; any
      other run has a single one. */
  lemma OneSnapshotPerDay(o: Order, bars: seq<BarEvent>)
    requires bars != []
    ensures Times(Backtested(o, bars).daily) ==
      (if o.mode == Mis then DayCloses(bars, |bars|) else []) + [bars[|bars| - 1].candle.ts]
  {
    hide Processed; hide CloseOut; hide MarkedEquity; hide DayCloses; hide Total;
    DailyAfter(o, bars, |bars|);
    DaysTelescope(o, bars, |bars|);
    var l := Processed(o, bars, |bars|);
    var d := Finished(o, l).daily;
    assert d == l.daily + [d[|l.daily|]] && d[|l.daily|].ts == bars[|bars| - 1].candle.ts;
  }

  /** Selling only part of a position still empties the book: the margin of the shares left over never
      comes back. */
  lemma PartialSaleDrifts(o: Order, s: Sim, qty: nat, bar: BarEvent)
    requires Reconciled(o, s) && s.trail.clean && 0 < qty < s.book.position
    ensures var t := Submit(o, s, Intent(0, o.symbol, Sell, qty, 0), bar);
      && t.book.position == 0
      && t.trail.drift == Margin(DEFAULT_VENUE, o.mode, s.book.avg, qty)
        - Margin(DEFAULT_VENUE, o.mode, s.book.avg, s.book.position)
      && (s.book.avg >= 5 ==> t.trail.drift < 0)
  {
    hide Fees; hide CashImpact; hide Margin;
    if s.book.avg >= 5 { MarginGap(o.mode, s.book.avg, qty, s.book.position); }
  }

  lemma MarginGap(mode: TradingMode, avg: int, qty: nat, more: nat)
    requires avg >= 5 && qty < more
    ensures Margin(DEFAULT_VENUE, mode, avg, qty) < Margin(DEFAULT_VENUE, mode, avg, more)
  {
    var a, b := avg * qty, avg * more;
    assert b == a + avg * (more - qty);
    AtLeastFive(avg, more - qty);
    assert a >= 0;
  }

  lemma AtLeastFive(a: int, n: int)
    requires a >= 5 && n >= 1
    ensures a * n >= 5
  {
    assert a * n == a + a * (n - 1);
    assert a * (n - 1) >= 0;
  }

  // ---------------------------------------------------------------- what the list of fills says

  function FeesOf(log: seq<LoggedFill>): int {
    if log == [] then 0 else FeesOf(log[..|log| - 1]) + log[|log| - 1].fees
  }

  function SharesIn(log: seq<LoggedFill>): int {
    if log == [] then 0 else SharesIn(log[..|log| - 1]) + log[|log| - 1].qty
  }

  /** The average price of purchases, rounded toward zero after each of them. */
  function AveragePrice(buys: seq<LoggedFill>): int {
    if buys == [] then 0
    else
      var n, f := |buys| - 1, buys[|buys| - 1];
      if n == 0 || SharesIn(buys) <= 0 then f.price
      else MergeAverage(AveragePrice(buys[..n]), SharesIn(buys[..n]), f.price, f.qty)
  }

  /** The purchases since the last sale. */
  function OpenTrip(log: seq<LoggedFill>): seq<LoggedFill> {
    if log == [] || log[|log| - 1].side == Sell then [] else OpenTrip(log[..|log| - 1]) + [log[|log| - 1]]
  }

  /** What a sale makes over the average cost of its trip, all entry fees and its own. */
  function GainOf(trip: seq<LoggedFill>, sale: LoggedFill): int {
    sale.price * sale.qty - AveragePrice(trip) * sale.qty - FeesOf(trip) - sale.fees
  }

  function GainsOf(log: seq<LoggedFill>): int {
    if log == [] then 0
    else
      var n, f := |log| - 1, log[|log| - 1];
      GainsOf(log[..n]) + if f.side == Sell then GainOf(OpenTrip(log[..n]), f) else 0
  }

  function SalesOf(log: seq<LoggedFill>): nat {
    if log == [] then 0 else SalesOf(log[..|log| - 1]) + if log[|log| - 1].side == Sell then 1 else 0
  }

  function WinsOf(log: seq<LoggedFill>): nat {
    if log == [] then 0
    else
      var n, f := |log| - 1, log[|log| - 1];
      WinsOf(log[..n]) + if f.side == Sell && GainOf(OpenTrip(log[..n]), f) > 0 then 1 else 0
  }

  /** Nanoseconds from the first purchase to the sale, over all trips whose first purchase has a time. */
  function HoldOf(log: seq<LoggedFill>): int {
    if log == [] then 0
    else
      var n, f := |log| - 1, log[|log| - 1];
      var trip := OpenTrip(log[..n]);
      HoldOf(log[..n]) + if f.side == Sell && trip != [] && trip[0].ts != 0 then f.ts - trip[0].ts else 0
  }

  function Tally(log: seq<LoggedFill>): Marks {
    Marks(GainsOf(log), FeesOf(log), |log|, SalesOf(log), WinsOf(log))
  }

  /** The book is what the fills say. */
  ghost predicate BookIs(b: Book, log: seq<LoggedFill>) {
    var trip := OpenTrip(log);
    && MarksOf(b) == Tally(log) && b.holdNs == HoldOf(log)
    && b.position == SharesIn(trip) && b.avg == AveragePrice(trip) && b.entryFees == FeesOf(trip)
    && b.entryTs == (if trip == [] then 0 else trip[0].ts)
    && AllPositive(trip)
  }

  ghost predicate AllPositive(log: seq<LoggedFill>) {
    forall i :: 0 <= i < |log| ==> log[i].qty > 0
  }

  lemma {:induction false} SharesPositive(log: seq<LoggedFill>)
    requires AllPositive(log)
    ensures SharesIn(log) >= |log|
  {
    if log != [] { SharesPositive(log[..|log| - 1]); }
  }

  function Logged(f: Fill): LoggedFill { LoggedFill(f.ts, f.side, f.price, f.qty, f.fees) }

  /** One more fill. */
  lemma LogMore(log: seq<LoggedFill>, f: LoggedFill)
    ensures var all, trip := log + [f], OpenTrip(log);
      && OpenTrip(all) == (if f.side == Sell then [] else trip + [f])
      && FeesOf(all) == FeesOf(log) + f.fees && SharesIn(all) == SharesIn(log) + f.qty
      && GainsOf(all) == GainsOf(log) + (if f.side == Sell then GainOf(trip, f) else 0)
      && SalesOf(all) == SalesOf(log) + (if f.side == Sell then 1 else 0)
      && WinsOf(all) == WinsOf(log) + (if f.side == Sell && GainOf(trip, f) > 0 then 1 else 0)
      && HoldOf(all) == HoldOf(log) + (if f.side == Sell && trip != [] && trip[0].ts != 0 then f.ts - trip[0].ts else 0)
  {
    hide GainOf;
    assert (log + [f])[..|log|] == log;
  }

  lemma AverageMore(trip: seq<LoggedFill>, f: LoggedFill)
    requires AllPositive(trip) && f.qty > 0
    ensures SharesIn(trip) >= |trip|
    ensures AveragePrice(trip + [f]) ==
      if trip == [] then f.price else MergeAverage(AveragePrice(trip), SharesIn(trip), f.price, f.qty)
  {
    hide MergeAverage;
    var more := trip + [f];
    assert more[..|trip|] == trip && more[|trip|] == f;
    SharesPositive(trip);
    SharesMore(trip, f);
    hide SharesIn;
  }

  lemma SharesMore(trip: seq<LoggedFill>, f: LoggedFill)
    ensures SharesIn(trip + [f]) == SharesIn(trip) + f.qty
  {
    assert (trip + [f])[..|trip|] == trip;
  }

  /** Booking a fill keeps the book what the fills say. */
  lemma FillIsTallied(b: Book, log: seq<LoggedFill>, f: Fill)
    requires BookIs(b, log) && f.qty > 0
    ensures BookIs(ApplyToBook(b, f), log + [Logged(f)])
  {
    hide FeesOf; hide SharesIn; hide AveragePrice; hide OpenTrip; hide GainsOf; hide SalesOf; hide WinsOf; hide HoldOf;
    hide MergeAverage;
    var trip, g := OpenTrip(log), Logged(f);
    LogMore(log, g);
    LogMore(trip, g);
    AverageMore(trip, g);
    NothingLogged();
  }

  lemma NothingLogged()
    ensures Tally([]) == Marks(0, 0, 0, 0, 0) && HoldOf([]) == 0
    ensures OpenTrip([]) == [] && SharesIn([]) == 0 && AveragePrice([]) == 0
  {
    hide GainOf; hide MergeAverage;
  }

  lemma SubmitTallies(o: Order, s: Sim, i: Intent, bar: BarEvent)
    requires BookIs(s.book, s.log)
    ensures BookIs(Submit(o, s, i, bar).book, Submit(o, s, i, bar).log)
  {
    hide BookIs; hide ApplyToBook; hide Execution; hide Trailed;
    if Accepts(DEFAULT_VENUE, i.side, i.qty, bar.candle.close, o.mode, s.book.cash, s.book.position) {
      ExecutionKeepsQty(s.nextOrder, i, bar, o.mode, s.book.avg);
      FillIsTallied(s.book, s.log, Execution(DEFAULT_VENUE, s.nextOrder, i, bar, o.mode, s.book.avg));
    }
  }

  lemma ExecutionKeepsQty(orderId: nat, i: Intent, bar: BarEvent, mode: TradingMode, avg: int)
    ensures Execution(DEFAULT_VENUE, orderId, i, bar, mode, avg).qty == i.qty
  {}

  lemma {:induction false} SubmitAllTallies(o: Order, s: Sim, intents: seq<Intent>, bar: BarEvent)
    requires BookIs(s.book, s.log)
    ensures var t := SubmitAll(o, s, intents, bar); BookIs(t.book, t.log)
    decreases |intents|
  {
    hide BookIs; hide Submit;
    if intents != [] {
      SubmitTallies(o, s, intents[0], bar);
      SubmitAllTallies(o, Submit(o, s, intents[0], bar), intents[1..], bar);
    }
  }

  lemma CloseOutTallies(o: Order, s: Sim, bar: BarEvent)
    requires BookIs(s.book, s.log)
    ensures var t := CloseOut(o, s, bar); BookIs(t.book, t.log)
  {
    hide BookIs; hide Submit;
    SubmitTallies(o, s, Intent(0, o.symbol, Sell, s.book.position, 0), bar);
  }

  lemma DecideTallies(o: Order, s: Sim, bar: BarEvent)
    requires BookIs(s.book, s.log)
    ensures var t := Decide(o, s, bar); BookIs(t.book, t.log)
  {
    hide BookIs; hide SubmitAll; hide CloseOut;
    var seen := s.seen + [SawBar(bar, s.book.position, s.book.cash)];
    SubmitAllTallies(o, s.(seen := seen), o.strategy.decide(seen), bar);
    CloseOutTallies(o, SubmitAll(o, s.(seen := seen), o.strategy.decide(seen), bar), bar);
  }

  /** After every bar the book is what the fills say. */
  lemma {:induction false} AlwaysTallied(o: Order, bars: seq<BarEvent>, n: nat)
    requires n <= |bars|
    ensures var s := Processed(o, bars, n).sim; BookIs(s.book, s.log)
  {
    hide BookIs; hide Decide; hide CloseOut; hide MarkedEquity; hide UtcDay;
    if n == 0 {
      NothingLogged();
      assert BookIs(NewBook(o.start), []) by { EmptyBook(o.start); }
    } else {
      AlwaysTallied(o, bars, n - 1);
      var l := Processed(o, bars, n - 1);
      if l.last.Some? {
        CloseOutTallies(o, l.sim, l.last.value);
        DecideTallies(o, CloseOut(o, l.sim, l.last.value), bars[n - 1]);
      }
      DecideTallies(o, l.sim, bars[n - 1]);
    }
  }

  lemma EmptyBook(cash: int)
    ensures BookIs(NewBook(cash), [])
  {
    NothingLogged();
    hide GainOf; hide MergeAverage; hide Tally; hide HoldOf; hide OpenTrip; hide SharesIn; hide AveragePrice;
  }

  /** What a backtest reports, from its list of fills alone: their number, the sum of their fees, the number of
      sales, and the sales that gained over the average cost of their trip, its entry fees and their own. */
  lemma ReportIsTally(o: Order, bars: seq<BarEvent>)
    ensures var r := Backtested(o, bars);
      && r.fills == |r.log| && r.fees == FeesOf(r.log) && r.trips == SalesOf(r.log)
      && r.wins == WinsOf(r.log) && r.realized == GainsOf(r.log) && r.holdNs == HoldOf(r.log)
      && OpenTrip(r.log) == []
  {
    hide Processed; hide CloseOut; hide MarkedEquity; hide GainOf; hide MergeAverage;
    var l := Processed(o, bars, |bars|);
    AlwaysTallied(o, bars, |bars|);
    DaysTelescope(o, bars, |bars|);
    CloseDaySim(o, l);
    BacktestTotals(o, bars);
    if l.last.Some? { CloseOutTallies(o, l.sim, l.last.value); }
    var s := Finished(o, l).sim;
    SharesPositive(OpenTrip(s.log));
  }

  class BacktestRunner {
    const order: Order
    const exchange: SimulatedExchange
    var book: Book
    var seen: seq<Seen>
    var log: seq<LoggedFill>
    var last: Option<BarEvent>
    var equity: seq<int>
    var peak: int
    var maxDrop: int
    var daily: seq<Daily>
    var day0: Marks
    ghost var trail: Trail

    ghost function State(): Loop
      reads this, exchange
    {
      Loop(Sim(book, exchange.nextOrderId, seen, log, trail), last, equity, peak, maxDrop, daily, day0)
    }

    constructor (order: Order, exchange: SimulatedExchange)
      requires exchange.nextOrderId == 1
      ensures this.order == order && this.exchange == exchange && State() == Begin(order)
    {
      this.order, this.exchange := order, exchange;
      book, seen, log, last := NewBook(order.start), [], [], None;
      equity, peak, maxDrop, daily, day0 := [], order.start, 0, [], Marks(0, 0, 0, 0, 0);
      trail := Trail(0, 0, true);
    }

    method SubmitAndApply(i: Intent, px: BarEvent)
      requires exchange.config == DEFAULT_VENUE
      modifies this, exchange
      ensures State() == old(State()).(sim := Submit(order, old(State()).sim, i, px))
      ensures old(BookIs(book, log)) ==> BookIs(book, log)
    {
      hide Fees; hide CashImpact; hide Margin; hide FillPrice; hide BookIs;
      if BookIs(book, log) { SubmitTallies(order, State().sim, i, px); }
      var fill := exchange.Submit(i, px, order.mode, book.cash, book.position, book.avg);
      if fill.None? { return; }
      var f := fill.value;
      trail := Trailed(trail, book, f, order.mode);
      book := ApplyToBook(book, f);
      log := log + [LoggedFill(f.ts, f.side, f.price, f.qty, f.fees)];
      seen := seen + [SawFill(f)];
    }

    method FlattenAt(px: BarEvent)
      requires exchange.config == DEFAULT_VENUE
      modifies this, exchange
      ensures State() == old(State()).(sim := CloseOut(order, old(State()).sim, px))
    {
      hide Submit;
      if book.position <= 0 { return; }
      SubmitAndApply(Intent(0, order.symbol, Sell, book.position, 0), px);
    }

    method CloseDayAt(bar: BarEvent)
      modifies this
      ensures State() == CloseDay(order, old(State()), bar)
    {
      hide MarkedEquity;
      var now := MarksOf(book);
      daily := daily + [Daily(bar.candle.ts, MarkedEquity(book, bar.candle.close, order.mode), Minus(now, day0))];
      day0 := now;
    }

    method SubmitEach(intents: seq<Intent>, bar: BarEvent)
      requires exchange.config == DEFAULT_VENUE
      modifies this, exchange
      ensures State() == old(State()).(sim := SubmitAll(order, old(State()).sim, intents, bar))
    {
      hide Submit;
      var k := 0;
      assert intents[0..] == intents;
      while k < |intents|
        invariant k <= |intents|
        invariant State() == old(State()).(sim := State().sim)
        invariant SubmitAll(order, State().sim, intents[k..], bar) == SubmitAll(order, old(State()).sim, intents, bar)
      {
        assert intents[k..][0] == intents[k] && intents[k..][1..] == intents[k + 1..];
        SubmitAndApply(intents[k], bar);
        k := k + 1;
      }
    }

    method TakeBar(bar: BarEvent)
      requires exchange.config == DEFAULT_VENUE
      modifies this, exchange
      ensures State() == TakeOne(order, old(State()), bar)
    {
      hide EndDay; hide Decide; hide MarkedEquity; hide UtcDay;
      if last.Some? && order.mode == Mis && UtcDay(bar) != UtcDay(last.value) { EndDayAt(last.value); }
      DecideOn(bar);
      var eq := MarkedEquity(book, bar.candle.close, order.mode);
      equity := equity + [eq];
      peak := Max(peak, eq);
      maxDrop := Max(maxDrop, peak - eq);
      last := Some(bar);
    }

    method EndDayAt(bar: BarEvent)
      requires exchange.config == DEFAULT_VENUE
      modifies this, exchange
      ensures State() == EndDay(order, old(State()), bar)
    {
      hide CloseOut; hide CloseDay;
      FlattenAt(bar);
      CloseDayAt(bar);
    }

    method DecideOn(bar: BarEvent)
      requires exchange.config == DEFAULT_VENUE
      modifies this, exchange
      ensures State() == old(State()).(sim := Decide(order, old(State()).sim, bar))
    {
      hide CloseOut; hide SubmitAll;
      seen := seen + [SawBar(bar, book.position, book.cash)];
      SubmitEach(order.strategy.decide(seen), bar);
      if order.strategy.wantsExit(seen) { FlattenAt(bar); }
    }

    /** Push history into the ring while there is room, pop and process, until all bars are done. */
    method Pump(bars: seq<BarEvent>)
      requires exchange.config == DEFAULT_VENUE && State() == Begin(order)
      modifies this, exchange
      ensures State() == Processed(order, bars, |bars|)
    {
      hide TakeOne;
      var ring := new SpscRing<BarEvent>(RING_CAPACITY);
      var next, processed := 0, 0;
      while processed < |bars|
        invariant processed <= next <= |bars| && ring.items == bars[processed..next]
        invariant fresh(ring) && State() == Processed(order, bars, processed)
      {
        next := TopUp(ring, bars, processed, next);
        var bar := ring.TryPop();
        if bar.None? { break; }
        processed := processed + 1;
        TakeBar(bar.value);
      }
    }

    method Run(bars: seq<BarEvent>) returns (r: Result)
      requires exchange.config == DEFAULT_VENUE && State() == Begin(order)
      modifies this, exchange
      ensures r == Backtested(order, bars)
      ensures r.fills == |r.log| && r.fees == FeesOf(r.log) && r.trips == SalesOf(r.log)
        && r.wins == WinsOf(r.log) && r.realized == GainsOf(r.log) && r.holdNs == HoldOf(r.log)
    {
      ReportIsTally(order, bars);
      hide TakeOne; hide CloseOut; hide MarkedEquity; hide Processed;
      Pump(bars);
      if last.Some? {
        var bar := last.value;
        FlattenAt(bar);
        if |equity| > 0 { equity := equity[|equity| - 1 := MarkedEquity(book, bar.candle.close, order.mode)]; }
        CloseDayAt(bar);
      }
      r := Result(order.start, if |equity| == 0 then book.cash else equity[|equity| - 1], book.realized, book.fees,
        maxDrop, book.fills, book.trips, book.wins, book.holdNs, |bars|, daily, log);
    }
  }
}
