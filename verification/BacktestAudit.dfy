/** A backtest's fills against its bars and its daily snapshots: every fill is dealt at the venue's terms
    on the bar at hand, every snapshot counts exactly the fills of its day, and every equity sample is what
    selling out at the close would bring. */
module BacktestAudit {
  import opened Domain
  import opened Orders
  import opened Exchange
  import opened Container
  import opened Backtesting

  // ---------------------------------------------------------------- fills against bars

  function DayOf(ts: Timestamp): nat { ts / 86_400_000_000_000 }

  predicate LoggedAt(f: LoggedFill, bar: BarEvent) {
    f.ts == bar.candle.ts && Charged(f.side, f.qty, f.price, f.fees, bar.candle.close)
  }

  /** From fill k on, the fills are dealt at the bar. */
  ghost predicate DealtFrom(log: seq<LoggedFill>, k: nat, bar: BarEvent) {
    k <= |log| && forall i :: k <= i < |log| ==> LoggedAt(log[i], bar)
  }

  /** At most one fill between j and k, a sale at the close of the bar before the last, which ended an
      intraday day; the fills from k on are dealt at the last bar. */
  ghost predicate BarCut(o: Order, log: seq<LoggedFill>, j: nat, k: nat, bars: seq<BarEvent>)
    requires bars != []
  {
    var n := |bars| - 1;
    && j <= k <= j + 1 && DealtFrom(log, k, bars[n])
    && (j < k ==>
          && n > 0 && o.mode == Mis && DayOf(bars[n - 1].candle.ts) != DayOf(bars[n].candle.ts)
          && log[j].side == Sell && LoggedAt(log[j], bars[n - 1]))
  }

  /** The fills come from the bars, one bar after the other. */
  ghost predicate LogDealt(o: Order, log: seq<LoggedFill>, bars: seq<BarEvent>)
    decreases |bars|
  {
    if bars == [] then log == []
    else exists j: nat, k: nat :: BarCut(o, log, j, k, bars) && LogDealt(o, log[..j], bars[..|bars| - 1])
  }

  /** Submitting at a bar adds fills dealt at it. */
  ghost predicate Extends(s: Sim, t: Sim, bar: BarEvent) {
    s.log <= t.log && DealtFrom(t.log, |s.log|, bar)
  }

  lemma ExtendsTwice(s: Sim, t: Sim, u: Sim, bar: BarEvent)
    requires Extends(s, t, bar) && Extends(t, u, bar)
    ensures Extends(s, u, bar)
  {
    hide LoggedAt;
    forall i | |s.log| <= i < |u.log| ensures LoggedAt(u.log[i], bar) {
      if i < |t.log| { assert u.log[i] == t.log[i]; }
    }
  }

  lemma SubmitExtends(o: Order, s: Sim, i: Intent, bar: BarEvent)
    ensures Extends(s, Submit(o, s, i, bar), bar)
    ensures |Submit(o, s, i, bar).log| <= |s.log| + 1
    ensures i.side == Sell && |Submit(o, s, i, bar).log| > |s.log| ==> Submit(o, s, i, bar).log[|s.log|].side == Sell
  {
    if Accepts(DEFAULT_VENUE, i.side, i.qty, bar.candle.close, o.mode, s.book.cash, s.book.position) {
      ExecutionTerms(s.nextOrder, i, bar, o.mode, s.book.avg);
    }
    hide Charged; hide FillPrice; hide Fees; hide CashImpact; hide ApplyToBook; hide Accepts;
  }

  lemma {:induction false} SubmitAllExtends(o: Order, s: Sim, intents: seq<Intent>, bar: BarEvent)
    ensures Extends(s, SubmitAll(o, s, intents, bar), bar)
    decreases |intents|
  {
    hide Submit; hide LoggedAt;
    if intents != [] {
      var t := Submit(o, s, intents[0], bar);
      SubmitExtends(o, s, intents[0], bar);
      SubmitAllExtends(o, t, intents[1..], bar);
      ExtendsTwice(s, t, SubmitAll(o, t, intents[1..], bar), bar);
    }
  }

  /** A close-out adds at most one fill, a sale. */
  lemma CloseOutExtends(o: Order, s: Sim, bar: BarEvent)
    ensures var t := CloseOut(o, s, bar);
      && Extends(s, t, bar) && |t.log| <= |s.log| + 1
      && (|t.log| > |s.log| ==> t.log[|s.log|].side == Sell)
  {
    hide Submit; hide LoggedAt;
    SubmitExtends(o, s, Intent(0, o.symbol, Sell, s.book.position, 0), bar);
  }

  lemma DecideExtends(o: Order, s: Sim, bar: BarEvent)
    ensures Extends(s, Decide(o, s, bar), bar)
  {
    hide SubmitAll; hide CloseOut; hide Extends;
    var s0 := s.(seen := s.seen + [SawBar(bar, s.book.position, s.book.cash)]);
    var s1 := SubmitAll(o, s0, o.strategy.decide(s0.seen), bar);
    SubmitAllExtends(o, s0, o.strategy.decide(s0.seen), bar);
    CloseOutExtends(o, s1, bar);
    assert Extends(s, s1, bar) by { SameLog(s, s0, s1, bar); }
    ExtendsTwice(s, s1, CloseOut(o, s1, bar), bar);
  }

  lemma SameLog(s: Sim, s0: Sim, t: Sim, bar: BarEvent)
    requires Extends(s0, t, bar) && s0.log == s.log
    ensures Extends(s, t, bar)
  {}

  predicate EndsDay(o: Order, bars: seq<BarEvent>, n: nat)
    requires 0 < n <= |bars|
  {
    n > 1 && o.mode == Mis && DayOf(bars[n - 2].candle.ts) != DayOf(bars[n - 1].candle.ts)
  }

  /** The book and fills on which the strategy decides at the n-th bar. */
  function BeforeBar(o: Order, bars: seq<BarEvent>, n: nat): Sim
    requires 0 < n <= |bars|
  {
    var s := Processed(o, bars, n - 1).sim;
    if EndsDay(o, bars, n) then CloseOut(o, s, bars[n - 2]) else s
  }

  lemma BarIs(o: Order, bars: seq<BarEvent>, n: nat)
    requires 0 < n <= |bars|
    ensures Processed(o, bars, n).sim == Decide(o, BeforeBar(o, bars, n), bars[n - 1])
  {
    hide Decide; hide CloseOut; hide MarkedEquity;
    DaysTelescope(o, bars, n - 1);
  }

  lemma BarDeals(o: Order, bars: seq<BarEvent>, n: nat)
    requires 0 < n <= |bars|
    requires LogDealt(o, Processed(o, bars, n - 1).sim.log, bars[..n - 1])
    ensures LogDealt(o, Processed(o, bars, n).sim.log, bars[..n])
  {
    hide Decide; hide CloseOut; hide Processed; hide LogDealt; hide LoggedAt;
    BarIs(o, bars, n);
    var log, s, t := Processed(o, bars, n - 1).sim.log, BeforeBar(o, bars, n), Processed(o, bars, n).sim.log;
    if EndsDay(o, bars, n) { CloseOutExtends(o, Processed(o, bars, n - 1).sim, bars[n - 2]); }
    DecideExtends(o, s, bars[n - 1]);
    assert bars[..n][..n - 1] == bars[..n - 1];
    assert t[..|log|] == log;
    if |s.log| > |log| { assert t[|log|] == s.log[|log|]; }
    CutIs(o, t, |log|, |s.log|, bars[..n]);
  }

  lemma CutIs(o: Order, log: seq<LoggedFill>, j: nat, k: nat, bars: seq<BarEvent>)
    requires bars != [] && BarCut(o, log, j, k, bars) && LogDealt(o, log[..j], bars[..|bars| - 1])
    ensures LogDealt(o, log, bars)
  {}

  /** After every bar the fills come from the bars so far. */
  lemma {:induction false} AlwaysDealt(o: Order, bars: seq<BarEvent>, n: nat)
    requires n <= |bars|
    ensures LogDealt(o, Processed(o, bars, n).sim.log, bars[..n])
  {
    if n == 0 {
      assert bars[..0] == [];
    } else {
      AlwaysDealt(o, bars, n - 1);
      BarDeals(o, bars, n);
    }
  }

  /** The fills a backtest reports come from its bars, one after the other and each at the venue's terms; what
      is left at the end is sold at the last close. */
  lemma BacktestDealt(o: Order, bars: seq<BarEvent>)
    ensures var log := Backtested(o, bars).log;
      exists k: nat :: k <= |log| <= k + 1 && LogDealt(o, log[..k], bars) &&
        (k < |log| ==> bars != [] && log[k].side == Sell && LoggedAt(log[k], bars[|bars| - 1]))
  {
    hide Processed; hide CloseOut; hide MarkedEquity; hide LogDealt; hide LoggedAt;
    var l := Processed(o, bars, |bars|);
    AlwaysDealt(o, bars, |bars|);
    assert bars[..|bars|] == bars;
    DaysTelescope(o, bars, |bars|);
    CloseDaySim(o, l);
    if bars != [] { CloseOutExtends(o, l.sim, bars[|bars| - 1]); }
    var log, k := Backtested(o, bars).log, |l.sim.log|;
    assert log[..k] == l.sim.log;
  }

  // ---------------------------------------------------------------- cash from the fills alone

  /** The part of a notional that is blocked as margin. */
  function Blocked(mode: TradingMode, price: int, qty: int): int { TDiv(price * qty, if mode == Mis then 5 else 1) }

  function BlockedFor(mode: TradingMode, buys: seq<LoggedFill>): int {
    if buys == [] then 0
    else BlockedFor(mode, buys[..|buys| - 1]) + Blocked(mode, buys[|buys| - 1].price, buys[|buys| - 1].qty)
  }

  /** Over all sales, the margin released at the average price less the margin the trip had blocked. */
  function DriftOf(mode: TradingMode, log: seq<LoggedFill>): int {
    if log == [] then 0
    else
      var n, f := |log| - 1, log[|log| - 1];
      var trip := OpenTrip(log[..n]);
      DriftOf(mode, log[..n]) +
        if f.side == Sell then Blocked(mode, AveragePrice(trip), f.qty) - BlockedFor(mode, trip) else 0
  }

  lemma DriftMore(mode: TradingMode, log: seq<LoggedFill>, f: LoggedFill)
    ensures BlockedFor(mode, log + [f]) == BlockedFor(mode, log) + Blocked(mode, f.price, f.qty)
    ensures DriftOf(mode, log + [f]) == DriftOf(mode, log) +
      if f.side == Sell then Blocked(mode, AveragePrice(OpenTrip(log)), f.qty) - BlockedFor(mode, OpenTrip(log)) else 0
  {
    hide Blocked; hide AveragePrice; hide OpenTrip;
    assert (log + [f])[..|log|] == log;
  }

  ghost predicate TrailIs(o: Order, s: Sim) {
    s.trail.paid == BlockedFor(o.mode, OpenTrip(s.log)) && s.trail.drift == DriftOf(o.mode, s.log)
  }

  lemma SubmitTrails(o: Order, s: Sim, i: Intent, bar: BarEvent)
    requires BookIs(s.book, s.log) && TrailIs(o, s)
    ensures TrailIs(o, Submit(o, s, i, bar))
  {
    hide Fees; hide CashImpact; hide FillPrice; hide Accepts; hide ApplyToBook;
    if Submit(o, s, i, bar) != s {
      var f := Logged(Execution(DEFAULT_VENUE, s.nextOrder, i, bar, o.mode, s.book.avg));
      LogMore(s.log, f);
      DriftMore(o.mode, s.log, f);
      DriftMore(o.mode, OpenTrip(s.log), f);
      hide BlockedFor; hide DriftOf; hide OpenTrip; hide Tally; hide HoldOf; hide SharesIn; hide FeesOf;
      hide AveragePrice;
    }
  }

  lemma {:induction false} SubmitAllTrails(o: Order, s: Sim, intents: seq<Intent>, bar: BarEvent)
    requires BookIs(s.book, s.log) && TrailIs(o, s)
    ensures TrailIs(o, SubmitAll(o, s, intents, bar))
    decreases |intents|
  {
    hide BookIs; hide TrailIs; hide Submit;
    if intents != [] {
      SubmitTrails(o, s, intents[0], bar);
      SubmitTallies(o, s, intents[0], bar);
      SubmitAllTrails(o, Submit(o, s, intents[0], bar), intents[1..], bar);
    }
  }

  /** Book, trail and reconciliation together. */
  ghost predicate Straight(o: Order, s: Sim) {
    BookIs(s.book, s.log) && TrailIs(o, s) && Reconciled(o, s)
  }

  lemma CloseOutStraight(o: Order, s: Sim, bar: BarEvent)
    requires Straight(o, s) && bar.candle.close >= 0
    ensures Straight(o, CloseOut(o, s, bar))
  {
    hide BookIs; hide TrailIs; hide Reconciled; hide Submit;
    CloseOutTallies(o, s, bar);
    CloseOutReconciles(o, s, bar);
    SubmitTrails(o, s, Intent(0, o.symbol, Sell, s.book.position, 0), bar);
  }

  lemma DecideStraight(o: Order, s: Sim, bar: BarEvent)
    requires Straight(o, s) && bar.candle.close >= 0
    ensures Straight(o, Decide(o, s, bar))
  {
    hide BookIs; hide Reconciled; hide SubmitAll; hide CloseOut; hide BlockedFor; hide DriftOf; hide OpenTrip;
    var s0 := s.(seen := s.seen + [SawBar(bar, s.book.position, s.book.cash)]);
    var intents := o.strategy.decide(s0.seen);
    assert Reconciled(o, s0) by { SeenAside(o, s, s0.seen); }
    SubmitAllTallies(o, s0, intents, bar);
    SubmitAllTrails(o, s0, intents, bar);
    SubmitAllReconciles(o, s0, intents, bar);
    CloseOutStraight(o, SubmitAll(o, s0, intents, bar), bar);
  }

  lemma SeenAside(o: Order, s: Sim, seen: seq<Seen>)
    requires Reconciled(o, s)
    ensures Reconciled(o, s.(seen := seen))
  {
    hide Margin;
  }

  lemma {:induction false} AlwaysStraight(o: Order, bars: seq<BarEvent>, n: nat)
    requires PricesNonNegative(bars) && n <= |bars|
    ensures Straight(o, Processed(o, bars, n).sim)
  {
    hide Straight; hide Decide; hide CloseOut; hide MarkedEquity; hide UtcDay;
    if n == 0 {
      BeginStraight(o);
    } else {
      AlwaysStraight(o, bars, n - 1);
      DaysTelescope(o, bars, n - 1);
      var l := Processed(o, bars, n - 1);
      if l.last.Some? {
        CloseOutStraight(o, l.sim, l.last.value);
        DecideStraight(o, CloseOut(o, l.sim, l.last.value), bars[n - 1]);
      }
      DecideStraight(o, l.sim, bars[n - 1]);
    }
  }

  lemma BeginStraight(o: Order)
    ensures Straight(o, Begin(o).sim)
  {
    EmptyBook(o.start);
    BeginReconciled(o);
    NothingLogged();
    hide BookIs; hide Reconciled; hide OpenTrip;
  }

  /** With nothing held, the cash is the starting cash, the gains and the drift. */
  ghost predicate CashIs(o: Order, cash: int, log: seq<LoggedFill>) {
    cash == o.start + GainsOf(log) + DriftOf(o.mode, log)
  }

  lemma FlatCash(o: Order, s: Sim)
    requires Straight(o, s) && s.book.position == 0
    ensures CashIs(o, s.book.cash, s.log)
  {
    hide OpenTrip; hide GainsOf; hide FeesOf; hide SalesOf; hide WinsOf; hide HoldOf; hide AveragePrice; hide SharesIn;
    hide Margin; hide BlockedFor; hide DriftOf;
  }

  // ---------------------------------------------------------------- fills against snapshots

  lemma {:induction false} TripAfter(a: seq<LoggedFill>, b: seq<LoggedFill>)
    requires OpenTrip(a) == []
    ensures OpenTrip(a + b) == OpenTrip(b)
  {
    if b == [] {
      assert a + b == a;
    } else {
      var n := |b| - 1;
      TripAfter(a, b[..n]);
      assert a + b == a + b[..n] + [b[n]] && b == b[..n] + [b[n]];
      LogMore(a + b[..n], b[n]);
      LogMore(b[..n], b[n]);
    }
  }

  /** Fills after a finished trip are tallied on their own. */
  lemma {:induction false} TallyAfter(a: seq<LoggedFill>, b: seq<LoggedFill>)
    requires OpenTrip(a) == []
    ensures Tally(b) == Minus(Tally(a + b), Tally(a))
  {
    hide OpenTrip; hide GainsOf; hide FeesOf; hide SalesOf; hide WinsOf; hide GainOf; hide SharesIn; hide HoldOf;
    hide AveragePrice;
    if b == [] {
      assert a + b == a;
      NothingLogged();
    } else {
      var n := |b| - 1;
      TallyAfter(a, b[..n]);
      TripAfter(a, b[..n]);
      assert a + b == a + b[..n] + [b[n]] && b == b[..n] + [b[n]];
      LogMore(a + b[..n], b[n]);
      LogMore(b[..n], b[n]);
    }
  }

  /** A snapshot counts exactly the fills between two positions of the list, all of them of its day if the
      run is intraday; its equity is the cash that the fills up to it leave. */
  ghost predicate SnapshotOf(o: Order, log: seq<LoggedFill>, d: Daily, from: nat, upto: nat, priced: bool) {
    && from <= upto <= |log| && d.marks == Tally(log[from..upto])
    && (priced ==> CashIs(o, d.equity, log[..upto]))
    && (o.mode == Mis ==> forall k :: from <= k < upto ==> DayOf(log[k].ts) == DayOf(d.ts))
  }

  ghost predicate Snapshots(o: Order, log: seq<LoggedFill>, daily: seq<Daily>, cuts: seq<nat>,
                            priced: bool)
  {
    && |cuts| == |daily| + 1 && cuts[0] == 0
    && forall i :: 0 <= i < |daily| ==> SnapshotOf(o, log, daily[i], cuts[i], cuts[i + 1], priced)
  }

  /** What holds of the loop: the snapshots so far end at a finished trip, from which the next one counts. */
  ghost predicate Snapping(o: Order, l: Loop, cuts: seq<nat>, priced: bool) {
    && Snapshots(o, l.sim.log, l.daily, cuts, priced)
    && var last := cuts[|cuts| - 1];
       && last <= |l.sim.log| && OpenTrip(l.sim.log[..last]) == [] && l.day0 == Tally(l.sim.log[..last])
       && (o.mode == Mis && last < |l.sim.log| ==> l.last.Some?)
       && (o.mode == Mis && l.last.Some? ==>
             forall k :: last <= k < |l.sim.log| ==> DayOf(l.sim.log[k].ts) == DayOf(l.last.value.candle.ts))
  }

  lemma SnapshotsKept(o: Order, log: seq<LoggedFill>, more: seq<LoggedFill>, daily: seq<Daily>, cuts: seq<nat>,
                      priced: bool)
    requires Snapshots(o, log, daily, cuts, priced) && log <= more
    ensures Snapshots(o, more, daily, cuts, priced)
  {
    hide Tally; hide CashIs;
    forall i | 0 <= i < |daily| ensures SnapshotOf(o, more, daily[i], cuts[i], cuts[i + 1], priced) {
      assert SnapshotOf(o, log, daily[i], cuts[i], cuts[i + 1], priced);
      assert more[cuts[i]..cuts[i + 1]] == log[cuts[i]..cuts[i + 1]] && more[..cuts[i + 1]] == log[..cuts[i + 1]];
    }
  }

  /** More fills of the day the last bar belongs to. */
  lemma SnappingMore(o: Order, l: Loop, s: Sim, bar: BarEvent, cuts: seq<nat>, priced: bool)
    requires Snapping(o, l, cuts, priced) && Extends(l.sim, s, bar)
    requires l.last.Some? && o.mode == Mis && |l.sim.log| > cuts[|cuts| - 1] ==>
      DayOf(bar.candle.ts) == DayOf(l.last.value.candle.ts)
    ensures Snapping(o, l.(sim := s, last := Some(bar)), cuts, priced)
  {
    hide Tally; hide Charged; hide Snapshots; hide OpenTrip; hide DayOf;
    SnapshotsKept(o, l.sim.log, s.log, l.daily, cuts, priced);
    FirstCut(o, l.sim.log, l.daily, cuts, priced);
    var last := cuts[|cuts| - 1];
    assert s.log[..last] == l.sim.log[..last];
    if o.mode == Mis {
      forall k | last <= k < |s.log| ensures DayOf(s.log[k].ts) == DayOf(bar.candle.ts) {
        if k < |l.sim.log| { assert s.log[k] == l.sim.log[k]; } else { assert LoggedAt(s.log[k], bar); }
      }
    }
  }

  lemma FirstCut(o: Order, log: seq<LoggedFill>, daily: seq<Daily>, cuts: seq<nat>, priced: bool)
    requires Snapshots(o, log, daily, cuts, priced)
    ensures |cuts| == |daily| + 1
  {}

  lemma SnapshotsAppend(o: Order, log: seq<LoggedFill>, daily: seq<Daily>, cuts: seq<nat>, d: Daily, priced: bool)
    requires Snapshots(o, log, daily, cuts, priced) && SnapshotOf(o, log, d, cuts[|cuts| - 1], |log|, priced)
    ensures Snapshots(o, log, daily + [d], cuts + [|log|], priced)
  {
    hide SnapshotOf;
    var more, next := daily + [d], cuts + [|log|];
    forall i | 0 <= i < |more| ensures SnapshotOf(o, log, more[i], next[i], next[i + 1], priced) {
      if i < |daily| { assert SnapshotOf(o, log, daily[i], cuts[i], cuts[i + 1], priced); }
    }
  }

  /** With nothing held, the counters since the last cut are the tally of the fills since then. */
  lemma SinceCut(b: Book, log: seq<LoggedFill>, last: nat)
    requires BookIs(b, log) && b.position == 0 && last <= |log| && OpenTrip(log[..last]) == []
    ensures Minus(MarksOf(b), Tally(log[..last])) == Tally(log[last..|log|])
    ensures OpenTrip(log) == [] && MarksOf(b) == Tally(log) && log[..|log|] == log
  {
    hide Tally; hide OpenTrip; hide SharesIn; hide FeesOf; hide AveragePrice; hide HoldOf;
    SharesPositive(OpenTrip(log));
    TallyAfter(log[..last], log[last..]);
    assert log == log[..last] + log[last..] && log[last..|log|] == log[last..];
  }

  /** Taking a snapshot with nothing held. */
  lemma SnappingNext(o: Order, l: Loop, bar: BarEvent, cuts: seq<nat>, priced: bool)
    requires Snapping(o, l, cuts, priced) && l.last == Some(bar)
    requires BookIs(l.sim.book, l.sim.log) && l.sim.book.position == 0
    requires priced ==> CashIs(o, l.sim.book.cash, l.sim.log)
    ensures var next := cuts + [|l.sim.log|];
      Snapping(o, CloseDay(o, l, bar), next, priced) && next[|next| - 1] == |l.sim.log|
  {
    FirstCut(o, l.sim.log, l.daily, cuts, priced);
    hide DayOf; hide Snapshots; hide BookIs; hide Tally; hide OpenTrip; hide CashIs;
    var log, last := l.sim.log, cuts[|cuts| - 1];
    SinceCut(l.sim.book, log, last);
    var d := Daily(bar.candle.ts, MarkedEquity(l.sim.book, bar.candle.close, o.mode),
      Minus(MarksOf(l.sim.book), l.day0));
    assert SnapshotOf(o, log, d, last, |log|, priced);
    SnapshotsAppend(o, log, l.daily, cuts, d, priced);
  }

  lemma FlatAfterCloseOut(o: Order, s: Sim, bar: BarEvent)
    requires BookIs(s.book, s.log)
    ensures var t := CloseOut(o, s, bar); t.book.position == 0 && BookIs(t.book, t.log)
  {
    hide BookIs; hide CloseOut;
    CloseOutReconciles(o, s, bar);
    CloseOutTallies(o, s, bar);
  }

  /** Closing the day: sell out at its last bar, then take the snapshot. */
  lemma DayEnds(o: Order, l: Loop, bar: BarEvent, cuts: seq<nat>, priced: bool) returns (next: seq<nat>)
    requires Snapping(o, l, cuts, priced) && l.last == Some(bar) && BookIs(l.sim.book, l.sim.log)
    requires priced ==> Straight(o, l.sim) && bar.candle.close >= 0
    ensures Snapping(o, EndDay(o, l, bar), next, priced)
    ensures |next| > 0 && next[|next| - 1] == |EndDay(o, l, bar).sim.log|
  {
    hide Snapping; hide BookIs; hide Extends; hide CloseOut; hide Straight; hide CashIs;
    var s := CloseOut(o, l.sim, bar);
    CloseOutExtends(o, l.sim, bar);
    FlatAfterCloseOut(o, l.sim, bar);
    if priced {
      CloseOutStraight(o, l.sim, bar);
      FlatCash(o, s);
    }
    SnappingMore(o, l, s, bar, cuts, priced);
    assert l.(sim := s, last := Some(bar)) == l.(sim := s);
    SnappingNext(o, l.(sim := s), bar, cuts, priced);
    next := cuts + [|s.log|];
  }

  /** One bar, on the loop's own terms. */
  lemma BarSnaps(o: Order, l: Loop, bar: BarEvent, cuts: seq<nat>, priced: bool) returns (next: seq<nat>)
    requires Snapping(o, l, cuts, priced) && BookIs(l.sim.book, l.sim.log)
    requires priced ==> Straight(o, l.sim) && (l.last.Some? ==> l.last.value.candle.close >= 0)
    ensures Snapping(o, TakeOne(o, l, bar), next, priced)
  {
    hide Decide; hide EndDay; hide MarkedEquity; hide Snapping; hide BookIs; hide Extends; hide Straight;
    var ends := l.last.Some? && o.mode == Mis && UtcDay(bar) != UtcDay(l.last.value);
    var l1 := if ends then EndDay(o, l, l.last.value) else l;
    next := cuts;
    if ends { next := DayEnds(o, l, l.last.value, cuts, priced); }
    DecideExtends(o, l1.sim, bar);
    SnappingMore(o, l1, Decide(o, l1.sim, bar), bar, next, priced);
    SnappingSame(o, l1.(sim := Decide(o, l1.sim, bar), last := Some(bar)), TakeOne(o, l, bar), next, priced);
  }

  lemma SnappingSame(o: Order, l: Loop, m: Loop, cuts: seq<nat>, priced: bool)
    requires Snapping(o, l, cuts, priced)
    requires m.sim == l.sim && m.last == l.last && m.daily == l.daily && m.day0 == l.day0
    ensures Snapping(o, m, cuts, priced)
  {}

  lemma {:induction false} AlwaysSnapping(o: Order, bars: seq<BarEvent>, n: nat) returns (cuts: seq<nat>)
    requires n <= |bars|
    ensures Snapping(o, Processed(o, bars, n), cuts, PricesNonNegative(bars))
  {
    hide Snapping; hide TakeOne; hide BookIs; hide Straight;
    var priced := PricesNonNegative(bars);
    if n == 0 {
      cuts := [0];
      NoSnapshots(o, priced);
    } else {
      cuts := AlwaysSnapping(o, bars, n - 1);
      AlwaysTallied(o, bars, n - 1);
      DaysTelescope(o, bars, n - 1);
      if priced { AlwaysStraight(o, bars, n - 1); }
      cuts := BarSnaps(o, Processed(o, bars, n - 1), bars[n - 1], cuts, priced);
    }
  }

  lemma NoSnapshots(o: Order, priced: bool)
    ensures Snapping(o, Begin(o), [0], priced)
  {
    NothingLogged();
    hide Tally; hide OpenTrip;
  }

  /** The daily snapshots cut the reported fills into consecutive stretches: each snapshot counts exactly the
      fees, fills, trips, wins and gains of its stretch, in an intraday run fills of its UTC day, and no fill is
      left over; with prices that are not negative its equity is the cash those fills leave. */
  lemma SnapshotsTally(o: Order, bars: seq<BarEvent>)
    requires bars != []
    ensures var r := Backtested(o, bars);
      exists cuts: seq<nat> ::
        Snapshots(o, r.log, r.daily, cuts, PricesNonNegative(bars)) && cuts[|cuts| - 1] == |r.log|
  {
    hide Snapping; hide Processed; hide CloseOut; hide MarkedEquity; hide BookIs; hide Extends; hide Straight;
    var priced := PricesNonNegative(bars);
    var l, bar := Processed(o, bars, |bars|), bars[|bars| - 1];
    DaysTelescope(o, bars, |bars|);
    AlwaysTallied(o, bars, |bars|);
    var cuts := AlwaysSnapping(o, bars, |bars|);
    if priced { AlwaysStraight(o, bars, |bars|); }
    cuts := DayEnds(o, l, bar, cuts, priced);
    SnappingEnds(o, EndDay(o, l, bar), cuts, priced);
    assert Finished(o, l).sim == EndDay(o, l, bar).sim && Finished(o, l).daily == EndDay(o, l, bar).daily;
    var r := Backtested(o, bars);
    assert Snapshots(o, r.log, r.daily, cuts, priced) && cuts[|cuts| - 1] == |r.log|;
  }

  lemma SnappingEnds(o: Order, l: Loop, cuts: seq<nat>, priced: bool)
    requires Snapping(o, l, cuts, priced)
    ensures Snapshots(o, l.sim.log, l.daily, cuts, priced)
  {}

  // ---------------------------------------------------------------- equity samples

  /** The cash a sale of the whole position at the close would leave, without slippage and fees. */
  function Liquidated(b: Book, close: int, mode: TradingMode): int {
    b.cash + TDiv(b.avg * b.position, if mode == Mis then 5 else 1) + (close - b.avg) * b.position
  }

  /** The equity sample after a bar is that cash, or at most a paisa more for the rounding of the loan. */
  lemma SampleIsLiquidation(o: Order, bars: seq<BarEvent>, n: nat)
    requires PricesNonNegative(bars) && 0 < n <= |bars|
    ensures |Processed(o, bars, n).equity| == n
    ensures var l := Processed(o, bars, n);
      var rounding := l.equity[n - 1] - Liquidated(l.sim.book, bars[n - 1].candle.close, o.mode);
      0 <= rounding <= 1 && (o.mode == Cnc || l.sim.book.position == 0 ==> rounding == 0)
  {
    hide Decide; hide EndDay; hide Liquidated;
    DrawdownIsMaximum(o, bars, n);
    AlwaysReconciled(o, bars, n);
    var l := Processed(o, bars, n);
    LastIsMark(o, bars, n);
    MarkIsLiquidation(l.sim.book, bars[n - 1].candle.close, o.mode);
    hide MarkedEquity; hide Processed; hide IsPeak; hide IsMaxDrop; hide Margin;
  }

  lemma LastIsMark(o: Order, bars: seq<BarEvent>, n: nat)
    requires 0 < n <= |bars|
    ensures var l := Processed(o, bars, n);
      |l.equity| > 0 && l.equity[|l.equity| - 1] == MarkedEquity(l.sim.book, bars[n - 1].candle.close, o.mode)
  {
    hide Decide; hide EndDay; hide MarkedEquity; hide UtcDay;
  }

  lemma MarkIsLiquidation(b: Book, close: int, mode: TradingMode)
    requires b.position == 0 ==> b.avg == 0
    requires b.position > 0 ==> b.avg > 0
    ensures 0 <= MarkedEquity(b, close, mode) - Liquidated(b, close, mode) <= 1
    ensures mode == Cnc || b.position == 0 ==> MarkedEquity(b, close, mode) == Liquidated(b, close, mode)
  {
    var cost := b.avg * b.position;
    assert (close - b.avg) * b.position == close * b.position - cost;
    if b.position > 0 { assert cost >= 0 && cost * 4 >= 0; }
    FourFifths(cost);
  }

  lemma FourFifths(cost: int)
    requires cost >= 0
    ensures 0 <= cost - TDiv(cost, 5) - TDiv(cost * 4, 5) <= 1
    ensures TDiv(cost, 1) == cost && TDiv(cost * 0, 1) == 0
  {}
}
