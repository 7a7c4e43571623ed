/** A run whose settlement is negative: the workbook is never made whole. */
module RunWitness {
  import opened Domain
  import opened Orders
  import opened Exchange
  import opened Holdings
  import opened Ledger
  import opened Risk
  import opened Scheduler
  import opened Container
  import opened Manager
  import opened Router
  import opened RunProtocol
  import opened Workbooks

  /** Half past ten IST on the first day. */
  const TEN_THIRTY := 18_000_000_000_000

  const PENNY_BAR := BarEvent(0, Candle(TEN_THIRTY, 1, 1, 1, 1, 0))

  /** Buy one share on the first bar, then nothing. */
  const BUY_ONCE := Strategy((seen: seq<Seen>) => if |seen| == 1 then [Intent(0, 0, Buy, 1, 0)] else [],
    (seen: seq<Seen>) => false)

  function OneStrategy(): Registry { (name: string, symbol: SymbolId, qty: int) => BUY_ONCE }

  const CAPITAL := 2360

  const CONFIG := Config(1, 1, 0, 1, "buy_once", Mis, CAPITAL, CAPITAL, BUY_ONCE)

  const BUY := Intent(0, 0, Buy, 1, 0)

  lemma Minute()
    ensures IstMinuteOfDay(TEN_THIRTY) == 630 && IstDay(TEN_THIRTY) == 0
  {}

  ghost predicate Calm(w: World) {
    w.venue == DEFAULT_VENUE && w.risk.limits == DEFAULT_LIMITS && !w.risk.killSwitch && !w.risk.misSquareoff
  }

  /** The only intent passes every rule and fills at 2 paise, leaving no cash. */
  lemma BuyFills(c: State, w: World)
    requires c.config == CONFIG && c.held == Holding(CAPITAL, 0, 0, 0) && c.lastBar == Some(PENNY_BAR) && Calm(w)
    ensures Rejection(w.risk, ContextOf(c), Normalised(c, BUY, PENNY_BAR)).None?
    ensures var r := Submitted(c, w, Normalised(c, BUY, PENNY_BAR), PENNY_BAR);
      r.2 && r.0 == c.(held := r.0.held, fills := r.0.fills, seen := r.0.seen) && r.0.held == Holding(0, 1, 2, 0)
        && r.1.venue == w.venue
  {
    hide LedgerFill; hide IstMinuteOfDay;
    Minute();
  }

  lemma BarBuys(c: State, w: World)
    requires c == Created(CONFIG, Real).(status := Active, registered := true) && Calm(w)
    ensures var r := OnBar(c, w, PENNY_BAR);
      && r.0.status == Active && r.0.held == Holding(0, 1, 2, 0) && r.0.lastBar == Some(PENNY_BAR)
      && r.0.config == CONFIG && r.0.mode == Real && r.1.venue == DEFAULT_VENUE
  {
    hide Submitted; hide Rejection; hide RunIntents; hide Exit;
    var seen := [SawBar(PENNY_BAR, 0, CAPITAL)];
    assert c.seen + seen == seen;
    var c2 := c.(lastBar := Some(PENNY_BAR), seen := seen, signals := c.signals + [Signal(TEN_THIRTY, 1)]);
    IntentOutcome(c2, w, PENNY_BAR, BUY);
    BuyFills(c2, w);
    var c3 := Submitted(c2, w, Normalised(c2, BUY, PENNY_BAR), PENNY_BAR).0;
    assert !c3.config.strategy.wantsExit(c3.seen);
  }

  /** The forced sale at 0 paise charges Rs 23.60 in fees and takes cash below zero. */
  lemma ExitSells(c: State, w: World)
    requires c.config == CONFIG && c.held == Holding(0, 1, 2, 0) && c.lastBar == Some(PENNY_BAR) && c.status == Active
    requires w.venue == DEFAULT_VENUE
    ensures var r := StepOne(ExitStep, c, w);
      r.0.status == Stopped && r.0.held.cash == -2362 && r.0.mode == c.mode && r.0.config == c.config
  {
    hide LedgerFill; hide GiveBack; hide Unregister;
  }

  // ---------------------------------------------------------------- the whole run

  lemma SweepOne(op: Manager.Step, c: State, w: World)
    ensures Sweep(op, [c], w, 0) == (var r := StepOne(op, c, w); ([r.0], r.1))
  {
    hide StepOne;
    var r := StepOne(op, c, w);
    assert [c][0 := r.0] == [r.0];
    assert Sweep(op, [r.0], r.1, 1) == ([r.0], r.1);
  }

  const WINNER := Winner(0, 1, "buy_once", 1)

  const DESK := OpenDesk(1, CAPITAL)

  /** The only winner receives the whole pool. */
  lemma OneRouted()
    ensures var d := Route(DESK, [WINNER], OneStrategy());
      d.containers == [Created(CONFIG, Real).(status := Active, registered := true)] && Calm(d.world)
  {
    hide Manager.Create; hide Share;
    assert Share(CAPITAL, 1, 0) ==
      CAPITAL by { SharesAddUp(CAPITAL, 1);
        assert SumShares(CAPITAL, 1, 1) == SumShares(CAPITAL, 1, 0) + Share(CAPITAL, 1, 0); }
    assert RouteFirst(DESK, [WINNER], 0, OneStrategy()) == DESK;
    assert Route(DESK, [WINNER], OneStrategy()) == Manager.Create(DESK, RequestOf(WINNER, CAPITAL), OneStrategy());
    FirstCreated();
  }

  lemma FirstCreated()
    ensures var d := Manager.Create(DESK, RequestOf(WINNER, CAPITAL), OneStrategy());
      d.containers == [Created(CONFIG, Real).(status := Active, registered := true)] && Calm(d.world)
  {
    hide PositionForCapital;
    assert OneStrategy()("buy_once", 0, PositionForCapital(CAPITAL, 1, 5)) == BUY_ONCE;
    assert ConfigFor(DESK, RequestOf(WINNER, CAPITAL), OneStrategy()) == CONFIG;
  }

  /** Session events touch neither the container nor its venue. */
  lemma EventIsQuiet(d: Desk, c: State, e: SystemEvent)
    requires d.containers == [c] && c.status == Active && (e == SessionStart || e == SessionEnd)
    ensures var d1 := Dispatch(d, e);
      d1.containers == [c] && d1.world.venue == d.world.venue && (Calm(d.world) ==> Calm(d1.world))
  {
    var w := d.world.(risk := OnEvent(d.world.risk, e));
    SweepOne(EventStep(e), c, w);
  }

  lemma OneBarReplayed(d: Desk, c: State)
    requires d.containers == [c] && c == Created(CONFIG, Real).(status := Active, registered := true) && Calm(d.world)
    ensures var r := After(d, [PENNY_BAR], 1);
      && r.sched.open && |r.desk.containers| == 1 && r.desk.world.venue == DEFAULT_VENUE
      && var b := r.desk.containers[0];
      b.status == Active && b.held == Holding(0, 1, 2, 0) && b.lastBar == Some(PENNY_BAR) && b.config == CONFIG
        && b.mode == Real
  {
    hide Sweep; hide OnBar; hide Calm; hide Dispatch; hide IstDay; hide IstMinuteOfDay;
    Minute();
    assert OnBarEvents(INITIAL, TEN_THIRTY) == [SessionStart];
    var d1 := Dispatch(d, SessionStart);
    EventIsQuiet(d, c, SessionStart);
    assert [SessionStart][1..] == [];
    assert DispatchAll(d, [SessionStart]) == DispatchAll(d1, []) == d1;
    SweepOne(BarStep(PENNY_BAR), c, d1.world);
    BarBuys(c, d1.world);
    assert After(d, [PENNY_BAR], 0) == Replay(INITIAL, d);
  }

  lemma RunEndsShort(d: Desk, c: State)
    requires d.containers == [c] && c == Created(CONFIG, Real).(status := Active, registered := true) && Calm(d.world)
    ensures var e := RunTape(d, [PENNY_BAR], 0);
      |e.containers| == 1 && e.containers[0].held.cash == -2362 && e.containers[0].Allocation() == CAPITAL
  {
    hide Sweep; hide StepOne; hide After; hide Dispatch; hide Calm;
    OneBarReplayed(d, c);
    var r := After(d, [PENNY_BAR], 1);
    var b := r.desk.containers[0];
    assert r.desk.containers == [b];
    EventIsQuiet(r.desk, b, SessionEnd);
    var d2 := Dispatch(r.desk, SessionEnd);
    SweepOne(ExitStep, b, d2.world);
    ExitSells(b, d2.world);
  }

  const RUN := RunConfig(0, "run", CAPITAL, 0)

  /** Rs 23.60 on a share of one paisa: the settlement is negative, the return is refused, and the
      workbook's capital stays borrowed for good. */
  lemma LoanNeverReturned()
    ensures var (s, out) := Execute(NO_BOOKS, RUN, [WINNER], [PENNY_BAR], OneStrategy());
      && out.returned == -2362
      && out.borrow in s.borrows && !s.borrows[out.borrow].returned
      && out.workbook in s.books && s.books[out.workbook].borrowed == CAPITAL && s.books[out.workbook].available == 0
  {
    hide BookOk; hide RunTape; hide Route; hide Calm; hide SettleBooks;
    NoBooksOk();
    RunSettles(NO_BOOKS, RUN, [WINNER], [PENNY_BAR], OneStrategy());
    OneRouted();
    var d := Route(DESK, [WINNER], OneStrategy());
    RunEndsShort(d, d.containers[0]);
    var e := RunTape(d, [PENNY_BAR], 0);
    OneGain(e.containers);
  }

  lemma OneGain(cs: seq<State>)
    requires |cs| == 1
    ensures Gained(Snapshots(cs)) == cs[0].held.cash - cs[0].Allocation()
  {
    assert Gained(Snapshots(cs)[..0]) == 0;
  }
}
