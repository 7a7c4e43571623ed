/** The run as it executes: objects, a bounded ring between tape and containers, and loops. */
module RunManagement {
  import opened Orders
  import opened Exchange
  import opened Ledger
  import opened Risk
  import opened Scheduler
  import opened Manager
  import opened Ring
  import opened Router
  import opened RunProtocol
  import opened Workbooks

  const RING_CAPACITY := 1024

  class RunManager {
    constructor () {}

    /** Send a system event to the risk engine and then to every container. */
    method DispatchSystem(e: SystemEvent, m: ContainerManager)
      requires m.Valid()
      modifies m.containers, m.venue, m.risk, m.ledger
      ensures m.ToDesk() == Dispatch(old(m.ToDesk()), e)
    {
      hide Sweep; hide OnEvent;
      m.risk.OnSystemEvent(e);
      m.VisitAll(EventStep(e));
    }

    method ProcessBar(bar: BarEvent, scheduler: SessionScheduler, m: ContainerManager)
      requires m.Valid()
      modifies scheduler, m.containers, m.venue, m.risk, m.ledger
      ensures Replay(scheduler.State(), m.ToDesk()) == OnTapeBar(old(Replay(scheduler.State(), m.ToDesk())), bar)
    {
      hide Sweep; hide Dispatch;
      var es := scheduler.OnBar(bar.candle.ts);
      var k := 0;
      assert es[0..] == es;
      while k < |es|
        invariant k <= |es| && scheduler.State() == OnBarState(old(scheduler.State()), bar.candle.ts)
        invariant DispatchAll(m.ToDesk(), es[k..]) == DispatchAll(old(m.ToDesk()), es)
      {
        assert es[k..][0] == es[k] && es[k..][1..] == es[k + 1..];
        DispatchSystem(es[k], m);
        k := k + 1;
      }
      m.VisitAll(BarStep(bar));
    }

    /** One turn of the pump: the bar that leaves the ring is the next one of the tape. */
    method PumpBar(ring: SpscRing<BarEvent>, tape: seq<BarEvent>, processed: nat, from: nat,
                   scheduler: SessionScheduler, m: ContainerManager)
      returns (next: nat, popped: bool)
      requires m.Valid() && processed <= from <= |tape| && processed < |tape|
      requires ring.items == tape[processed..from] && ring.capacity > 0
      modifies ring, scheduler, m.containers, m.venue, m.risk, m.ledger
      ensures popped && from <= next <= |tape| && processed < next && ring.items == tape[processed + 1..next]
      ensures Replay(scheduler.State(), m.ToDesk()) ==
        OnTapeBar(old(Replay(scheduler.State(), m.ToDesk())), tape[processed])
    {
      hide OnTapeBar;
      next := TopUp(ring, tape, processed, from);
      var bar := ring.TryPop();
      popped := bar.Some?;
      if popped { ProcessBar(bar.value, scheduler, m); }
    }

    /** Pump the tape through the ring; every bar is processed once, in order, until the cut. */
    method ReplayTape(tape: seq<BarEvent>, maxBars: nat, scheduler: SessionScheduler, m: ContainerManager)
      returns (cut: bool)
      requires m.Valid() && scheduler.State() == INITIAL
      modifies scheduler, m.containers, m.venue, m.risk, m.ledger
      ensures Replay(scheduler.State(), m.ToDesk()) == After(old(m.ToDesk()), tape, Length(tape, maxBars))
      ensures cut == (Length(tape, maxBars) < |tape|)
    {
      hide OnTapeBar;
      var ring := new SpscRing<BarEvent>(RING_CAPACITY);
      var next, processed := 0, 0;
      cut := false;
      while processed < |tape|
        invariant processed <= next <= |tape| && ring.items == tape[processed..next]
        invariant Replay(scheduler.State(), m.ToDesk()) == After(old(m.ToDesk()), tape, processed)
        invariant fresh(ring)
        invariant 0 < maxBars < |tape| ==> processed <= maxBars
        invariant !cut
      {
        if maxBars > 0 && processed >= maxBars {
          cut := true;
          break;
        }
        var popped;
        next, popped := PumpBar(ring, tape, processed, next, scheduler, m);
        if !popped { break; }
        processed := processed + 1;
      }
    }

    method Finish(cut: bool, scheduler: SessionScheduler, m: ContainerManager)
      requires m.Valid()
      modifies scheduler, m.containers, m.venue, m.risk, m.ledger
      ensures m.ToDesk() == Sweeped(Closing(old(Replay(scheduler.State(), m.ToDesk())), cut), ExitStep)
    {
      hide Sweep; hide Dispatch;
      if cut {
        m.risk.SetKillSwitch(true);
        DispatchSystem(KillSwitch, m);
      } else {
        var end := scheduler.FlushSession();
        if end.Some? { DispatchSystem(end.value, m); }
      }
      m.VisitAll(ExitStep);
    }

    method CountReal(m: ContainerManager) returns (n: nat)
      requires m.Valid()
      ensures n == RealCount(m.Values())
    {
      n := 0;
      var k := 0;
      while k < |m.containers|
        invariant k <= |m.containers| && n == RealCount(m.Values()[..k])
      {
        assert m.Values()[..k + 1][..k] == m.Values()[..k];
        if m.containers[k].mode == Real { n := n + 1; }
        k := k + 1;
      }
      assert m.Values()[..k] == m.Values();
    }

    method TakeSnapshots(m: ContainerManager) returns (out: seq<Snapshot>)
      requires m.Valid()
      ensures out == Snapshots(m.Values())
    {
      out := [];
      var k := 0;
      while k < |m.containers|
        invariant k <= |m.containers| && |out| == k
        invariant forall i :: 0 <= i < k ==> out[i] == SnapshotOf(m.Values()[i])
      {
        var c := m.containers[k];
        out := out + [Snapshot(c.config.id, c.config.symbol, c.config.name, c.mode,
                               if c.mode == Real then c.config.realAllocation
                                 else c.config.simCash, c.cash, c.realized, c.fills)];
        k := k + 1;
      }
      assert out == Snapshots(m.Values());
    }

    method Settle(books: WorkbookManager, workbook: nat, borrow: nat) returns (returned: int, availableAfter: int)
      requires books.Valid() && borrow in books.ledgers
      modifies books
      ensures books.Valid() && books.ledgers == old(books.ledgers)
      ensures var l := old(books.ledgers[borrow].State());
        && returned == l.Settlement()
        && books.State() == SettleBooks(old(books.State()), workbook, borrow, l)
        && availableAfter == if workbook in books.books then books.books[workbook].available else 0
    {
      hide BooksOk;
      var ledger := books.ledgers[borrow];
      returned := ledger.borrowed + ledger.realized;
      var r := books.Return(workbook, borrow, returned);
      availableAfter := if workbook in books.books then books.books[workbook].available else 0;
    }

    /** Replay the tape on routed containers and close everything. */
    method Trade(tape: seq<BarEvent>, maxBars: nat, m: ContainerManager) returns (cut: bool)
      requires m.Valid()
      modifies m.containers, m.venue, m.risk, m.ledger
      ensures m.ToDesk() == RunTape(old(m.ToDesk()), tape, maxBars)
      ensures cut == (Length(tape, maxBars) < |tape|)
    {
      hide After; hide Closing; hide Sweeped;
      var scheduler := new SessionScheduler();
      cut := ReplayTape(tape, maxBars, scheduler, m);
      Finish(cut, scheduler, m);
    }

    /** A manager without containers, with its own venue and risk engine. */
    method OpenManager(wb: nat, ledger: PortfolioLedger, registry: Registry) returns (m: ContainerManager)
      requires ledger.State() == Opened(ledger.borrowed)
      ensures m.Valid() && fresh(m) && fresh(m.venue) && fresh(m.risk) && m.ledger == ledger && m.registry == registry
      ensures m.containers == [] && m.ToDesk() == OpenDesk(wb, ledger.borrowed)
    {
      var venue := new SimulatedExchange(DEFAULT_VENUE);
      var risk := new RiskEngine(DEFAULT_LIMITS);
      m := new ContainerManager(wb, venue, risk, ledger, registry);
      assert m.Values() == [];
    }

    /** Replay the tape and report what was traded. */
    method TradeAndReport(tape: seq<BarEvent>, maxBars: nat, m: ContainerManager)
      returns (traded: seq<Snapshot>, fills: nat, cut: bool)
      requires m.Valid()
      modifies m.containers, m.venue, m.risk, m.ledger
      ensures var end := RunTape(old(m.ToDesk()), tape, maxBars);
        m.ledger.State() == end.world.ledger && traded == Snapshots(end.containers) && fills == |end.world.ledger.fills|
      ensures cut == (Length(tape, maxBars) < |tape|)
    {
      hide RunTape; hide Snapshots; hide Length;
      cut := Trade(tape, maxBars, m);
      traded := TakeSnapshots(m);
      fills := |m.ledger.fills|;
    }

    /** Route and trade a fresh ledger; the ledger ends as RunTape, or the idle router, leaves it. */
    method RouteAndTrade(wb: nat, ledger: PortfolioLedger, config: RunConfig, winners: seq<Winner>, tape: seq<BarEvent>,
                         registry: Registry)
      returns (realContainers: nat, traded: seq<Snapshot>, fills: nat, cut: bool)
      requires ledger.State() == Opened(config.capital)
      modifies ledger
      ensures var routed := Route(OpenDesk(wb, config.capital), winners, registry);
        var end := if routed.containers != [] then RunTape(routed, tape, config.maxBars) else routed;
        && ledger.State() == end.world.ledger && realContainers == RealCount(routed.containers)
        && (if routed.containers == [] then traded == [] && fills == 0 && !cut
            else
              && traded == Snapshots(end.containers) && fills == |ledger.fills|
              && cut == (Length(tape, config.maxBars) < |tape|))
    {
      hide RunTape; hide Route; hide Snapshots; hide RealCount; hide OpenDesk; hide Length;
      var m := OpenManager(wb, ledger, registry);
      var router := new DefaultRouter();
      router.Start(m, winners);
      realContainers := CountReal(m);
      traded, fills, cut := [], 0, false;
      if |m.containers| > 0 {
        traded, fills, cut := TradeAndReport(tape, config.maxBars, m);
      }
    }

    /** A run does to the books, and reports, exactly what Execute says. */
    method ExecuteRun(books: WorkbookManager, config: RunConfig, winners: seq<Winner>, tape: seq<BarEvent>,
                      registry: Registry)
      returns (out: RunResult)
      requires books.Valid()
      modifies books
      ensures books.Valid()
      ensures (books.State(), out) == Execute(old(books.State()), config, winners, tape, registry)
    {
      hide BooksOk; hide RunTape; hide Route; hide Snapshots; hide RealCount; hide SettleBooks; hide OpenDesk;
      var wb := books.Create(config.user, config.name, config.capital);
      var r, borrow := books.BorrowFrom(wb, config.capital);
      if r != Done { return RunResult(wb, 0, config.capital, 0, 0, 0, [], 0, false); }
      var realContainers, traded, fills, cut :=
        RouteAndTrade(wb, books.ledgers[borrow], config, winners, tape, registry);
      var returned, availableAfter := Settle(books, wb, borrow);
      out := RunResult(wb, borrow, config.capital, availableAfter, returned, realContainers, traded, fills, cut);
    }
  }
}
