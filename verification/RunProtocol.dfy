/** A whole run: a workbook lends capital, the router splits it, bars are replayed under the session
    scheduler, everything is closed and the settlement goes back. */
module RunProtocol {
  import opened Domain
  import opened Orders
  import opened Ledger
  import opened Risk
  import opened Scheduler
  import opened Container
  import opened Manager
  import opened Router
  import opened Workbooks

  // ---------------------------------------------------------------- replaying the tape

  datatype Replay = Replay(sched: SchedulerState, desk: Desk)

  function Sweeped(d: Desk, op: Manager.Step): Desk {
    var (cs, w) := Sweep(op, d.containers, d.world, 0);
    d.(containers := cs, world := w)
  }

  /** A system event reaches the risk engine, then every container. */
  function Dispatch(d: Desk, e: SystemEvent): Desk {
    Sweeped(d.(world := d.world.(risk := OnEvent(d.world.risk, e))), EventStep(e))
  }

  function DispatchAll(d: Desk, es: seq<SystemEvent>): Desk
    decreases |es|
  {
    if es == [] then d else DispatchAll(Dispatch(d, es[0]), es[1..])
  }

  function OnTapeBar(r: Replay, bar: BarEvent): Replay {
    var ts := bar.candle.ts;
    Replay(OnBarState(r.sched, ts), Sweeped(DispatchAll(r.desk, OnBarEvents(r.sched, ts)), BarStep(bar)))
  }

  /** The replay after the first n bars of the tape. */
  function After(d: Desk, tape: seq<BarEvent>, n: nat): Replay
    requires n <= |tape|
  {
    if n == 0 then Replay(INITIAL, d) else OnTapeBar(After(d, tape, n - 1), tape[n - 1])
  }

  /** How many bars are replayed; fewer than all of them means the run was cut. */
  function Length(tape: seq<BarEvent>, maxBars: nat): (n: nat)
    ensures n <= |tape|
  {
    if 0 < maxBars < |tape| then maxBars else |tape|
  }

  function Closing(r: Replay, cut: bool): Desk {
    if cut then
      var w := r.desk.world;
      Dispatch(r.desk.(world := w.(risk := w.risk.(killSwitch := true))), KillSwitch)
    else if r.sched.open then Dispatch(r.desk, SessionEnd)
    else r.desk
  }

  function RunTape(d: Desk, tape: seq<BarEvent>, maxBars: nat): Desk {
    var n := Length(tape, maxBars);
    Sweeped(Closing(After(d, tape, n), n < |tape|), ExitStep)
  }

  // ---------------------------------------------------------------- the invariant of a replay

  ghost predicate Agreed(d: Desk) {
    DeskInv(d.containers, d.world, d.nextId)
  }

  ghost predicate AllFlat(d: Desk) {
    forall i :: 0 <= i < |d.containers| ==> d.containers[i].held.position == 0
  }

  /** Same containers in the same order, with the same configuration and mode. */
  ghost predicate SamePeople(d: Desk, e: Desk) {
    && |d.containers| == |e.containers| && d.workbook == e.workbook
    && d.world.ledger.borrowed == e.world.ledger.borrowed
    && (forall i :: 0 <= i < |d.containers| ==>
          d.containers[i].config == e.containers[i].config && d.containers[i].mode == e.containers[i].mode)
  }

  lemma SweepedKeeps(d: Desk, op: Manager.Step)
    requires Agreed(d)
    ensures var e := Sweeped(d, op);
      && Agreed(e) && SamePeople(d, e)
      && (forall i :: 0 <= i < |d.containers| ==>
        Swept(op, d.containers[i], e.containers[i], Before(op, d.world).risk.misSquareoff))
      && (op.BarStep? || op.ExitStep? ==> e.world.risk.misSquareoff == d.world.risk.misSquareoff)
  {
    hide DeskInv; hide Sweep;
    SweepKeeps(op, d.containers, d.world, d.nextId, 0);
  }

  lemma RiskFlagsKeepInv(d: Desk, e: SystemEvent)
    requires Agreed(d)
    ensures Agreed(d.(world := d.world.(risk := OnEvent(d.world.risk, e))))
    ensures Agreed(d.(world := d.world.(risk := d.world.risk.(killSwitch := true))))
  {
    hide Sum; hide Running;
  }

  lemma EventFlags(cs: seq<State>, w: World, nextId: nat, e: SystemEvent)
    requires DeskInv(cs, w, nextId) && w.risk == OnEvent(w.risk, e)
    ensures Sweep(EventStep(e), cs, w, 0).1.risk.misSquareoff == w.risk.misSquareoff
  {
    hide DeskInv; hide Sweep;
    SweepKeeps(EventStep(e), cs, w, nextId, 0);
  }

  /** What one dispatched event does to the square-off flag and to positions. */
  lemma DispatchKeeps(d: Desk, e: SystemEvent)
    requires Agreed(d)
    ensures var d1 := Dispatch(d, e);
      && Agreed(d1) && SamePeople(d, d1)
      && (e == MisSquareoffWarning ==> AllFlat(d1) && d1.world.risk.misSquareoff)
      && (e != SessionStart && d.world.risk.misSquareoff && AllFlat(d) ==> AllFlat(d1) && d1.world.risk.misSquareoff)
      && (e == KillSwitch ==> forall i :: 0 <= i < |d1.containers| ==> d1.containers[i].status == Stopped)
  {
    hide DeskInv; hide Sweep;
    RiskFlagsKeepInv(d, e);
    var d0 := d.(world := d.world.(risk := OnEvent(d.world.risk, e)));
    EventFlags(d0.containers, d0.world, d0.nextId, e);
    SweepedKeeps(d0, EventStep(e));
  }

  lemma {:induction false} DispatchAllKeeps(d: Desk, es: seq<SystemEvent>)
    requires Agreed(d)
    ensures var d1 := DispatchAll(d, es);
      && Agreed(d1) && SamePeople(d, d1)
      && (es != [] && es[|es| - 1] == MisSquareoffWarning ==> AllFlat(d1) && d1.world.risk.misSquareoff)
    decreases |es|
  {
    hide Agreed; hide Dispatch; hide AllFlat;
    if es != [] {
      DispatchKeeps(d, es[0]);
      DispatchAllKeeps(Dispatch(d, es[0]), es[1..]);
    }
  }

  /** While the scheduler's warning stands, the risk engine blocks intraday orders and nobody holds
      shares; the scheduler is in a session from the first bar on. */
  ghost predicate ReplayInv(r: Replay) {
    && Agreed(r.desk)
    && (r.sched.misFired ==> r.desk.world.risk.misSquareoff && AllFlat(r.desk))
    && (r.sched.open || r.sched.lastDay == -1)
  }

  lemma TapeBarKeeps(r: Replay, bar: BarEvent)
    requires ReplayInv(r)
    ensures ReplayInv(OnTapeBar(r, bar)) && SamePeople(r.desk, OnTapeBar(r, bar).desk)
  {
    hide Agreed; hide Dispatch; hide Sweeped;
    var es := OnBarEvents(r.sched, bar.candle.ts);
    DispatchAllKeeps(r.desk, es);
    var d := DispatchAll(r.desk, es);
    SweepedKeeps(d, BarStep(bar));
    EventsEndInWarning(r.sched, bar.candle.ts);
  }

  /** After a bar the warning stands only if this bar sent it, last, or the bar sent nothing. */
  lemma EventsEndInWarning(s: SchedulerState, ts: Timestamp)
    ensures var es := OnBarEvents(s, ts);
      OnBarState(s, ts).misFired ==> (if es == [] then s.misFired else es[|es| - 1] == MisSquareoffWarning)
  {
    hide IstDay; hide IstMinuteOfDay;
  }

  /** Throughout a replay, whatever the strategies do: positions, fills and money of the containers
      agree with the ledger, and the square-off discipline holds. */
  lemma {:induction false} AfterKeeps(d: Desk, tape: seq<BarEvent>, n: nat)
    requires Agreed(d) && n <= |tape|
    ensures ReplayInv(After(d, tape, n)) && SamePeople(d, After(d, tape, n).desk)
  {
    hide OnTapeBar; hide Agreed; hide AllFlat;
    if n > 0 {
      AfterKeeps(d, tape, n - 1);
      TapeBarKeeps(After(d, tape, n - 1), tape[n - 1]);
    }
  }

  lemma {:induction false} WarningStands(d: Desk, tape: seq<BarEvent>, m: nat, n: nat)
    requires Agreed(d) && 0 < m <= n <= |tape|
    requires IstMinuteOfDay(tape[m - 1].candle.ts) >= 915
    requires forall i :: m <= i < n ==> IstDay(tape[i].candle.ts) == IstDay(tape[m - 1].candle.ts)
    ensures After(d, tape, n).sched.misFired && After(d, tape, n).sched.lastDay == IstDay(tape[m - 1].candle.ts)
    decreases n
  {
    hide Agreed; hide Sweeped; hide DispatchAll; hide AllFlat; hide IstDay; hide IstMinuteOfDay;
    AfterKeeps(d, tape, n - 1);
    if m < n { WarningStands(d, tape, m, n - 1); }
  }

  /** Square-off safety: from any bar at or after 15:15 IST until the next IST day, no container, all
      being intraday, holds a single share, even if the tape is out of order within the day. */
  lemma SquareOffSafety(d: Desk, tape: seq<BarEvent>, m: nat, n: nat)
    requires Agreed(d) && 0 < m <= n <= |tape|
    requires IstMinuteOfDay(tape[m - 1].candle.ts) >= 915
    requires forall i :: m <= i < n ==> IstDay(tape[i].candle.ts) == IstDay(tape[m - 1].candle.ts)
    ensures AllFlat(After(d, tape, n).desk)
  {
    hide Agreed; hide AllFlat; hide IstDay; hide IstMinuteOfDay;
    AfterKeeps(d, tape, n);
    WarningStands(d, tape, m, n);
  }

  // ---------------------------------------------------------------- after the run

  ghost function Gains(d: Desk): int { Sum(d.containers, ReleasedPnl()) }

  /** All containers stopped and flat, nothing allocated, no shares left. */
  ghost predicate Wound(d: Desk) {
    && (forall i :: 0 <= i < |d.containers| ==> d.containers[i].status == Stopped && d.containers[i].held.position == 0)
    && d.world.ledger.allocs == map[] && d.world.ledger.Settled()
    && (forall s :: d.world.ledger.Net(s) == 0)
  }

  lemma {:induction false} FlatSum(cs: seq<State>, s: SymbolId)
    requires forall i :: 0 <= i < |cs| ==> cs[i].held.position == 0
    ensures Sum(cs, SharesOf(s)) == 0
  {
    if cs != [] { FlatSum(cs[..|cs| - 1], s); }
  }

  lemma StoppedIsWound(d: Desk)
    requires Agreed(d) && forall i :: 0 <= i < |d.containers| ==> d.containers[i].status == Stopped
    ensures Wound(d)
    ensures d.world.ledger.Settlement() == d.world.ledger.borrowed + Gains(d)
  {
    hide Sum; hide Running; hide Conserved; hide IndexOk;
    forall s ensures d.world.ledger.Net(s) == 0 { FlatSum(d.containers, s); }
    NoneRunning(d.containers, AllocationOf());
    SettledIff(d.world.ledger, Sum(d.containers, ReleasedPaperPnl()));
  }

  lemma ClosingKeeps(r: Replay, cut: bool)
    requires ReplayInv(r)
    ensures Agreed(Closing(r, cut)) && SamePeople(r.desk, Closing(r, cut))
  {
    hide Agreed; hide Dispatch; hide AllFlat;
    RiskFlagsKeepInv(r.desk, KillSwitch);
    var w := r.desk.world;
    DispatchKeeps(r.desk.(world := w.(risk := w.risk.(killSwitch := true))), KillSwitch);
    DispatchKeeps(r.desk, SessionEnd);
  }

  /** However the run went and wherever it was cut, at its end every container is stopped and flat, the
      ledger holds nothing, and the settlement is the loan plus what the containers made. */
  lemma RunWindsUp(d: Desk, tape: seq<BarEvent>, maxBars: nat)
    requires Agreed(d)
    ensures var f := RunTape(d, tape, maxBars);
      && Wound(f) && SamePeople(d, f)
      && f.world.ledger.Settlement() == d.world.ledger.borrowed + Gains(f)
  {
    hide Agreed; hide Sweeped; hide Closing; hide Wound; hide OnTapeBar; hide AllFlat;
    var n := Length(tape, maxBars);
    AfterKeeps(d, tape, n);
    var c := Closing(After(d, tape, n), n < |tape|);
    ClosingKeeps(After(d, tape, n), n < |tape|);
    SweepedKeeps(c, ExitStep);
    StoppedIsWound(Sweeped(c, ExitStep));
  }

  // ---------------------------------------------------------------- a run from borrow to settlement

  datatype RunConfig = RunConfig(user: nat, name: string, capital: int, maxBars: nat)

  datatype Snapshot = Snapshot(
    id: ContainerId, symbol: SymbolId, strategy: string, mode: ContainerMode, allocation: int, cash: int,
    realized: int, fills: nat)

  datatype RunResult = RunResult(
    workbook: nat, borrow: nat, availableBefore: int, availableAfter: int, returned: int,
    realContainers: nat, traded: seq<Snapshot>, fills: nat, forceStopped: bool)

  function SnapshotOf(c: State): Snapshot {
    Snapshot(c.config.id, c.config.symbol, c.config.name, c.mode, c.Allocation(), c.held.cash, c.held.realized, c.fills)
  }

  function Snapshots(cs: seq<State>): (r: seq<Snapshot>)
    ensures |r| == |cs| && forall i :: 0 <= i < |cs| ==> r[i] == SnapshotOf(cs[i])
  {
    if cs == [] then [] else Snapshots(cs[..|cs| - 1]) + [SnapshotOf(cs[|cs| - 1])]
  }

  function RealCount(cs: seq<State>): nat {
    if cs == [] then 0 else RealCount(cs[..|cs| - 1]) + if cs[|cs| - 1].mode == Real then 1 else 0
  }

  /** Send the settlement of a ledger back to the workbook; a refused return is not reported. */
  function SettleBooks(s: BooksState, workbook: nat, borrow: nat, l: LedgerState): BooksState {
    ReturnCapital(s, workbook, borrow, l.Settlement(), l.Settled())
  }

  /** The whole run on values: the books afterwards and the run's result. The winners stand for the
      outcome of the evaluation backtests, the tape for the sorted bars of all symbols. */
  function Execute(s: BooksState, config: RunConfig, winners: seq<Winner>, tape: seq<BarEvent>,
                   registry: Registry): (BooksState, RunResult)
  {
    var wb := s.nextWorkbook;
    var s1 := CreateBook(s, config.user, config.name, config.capital);
    if BorrowError(s1, wb, config.capital).Some? then
      (s1, RunResult(wb, 0, config.capital, 0, 0, 0, [], 0, false))
    else
      var borrow := s1.nextBorrow;
      var s2 := BorrowCapital(s1, wb, config.capital);
      var routed := Route(OpenDesk(wb, config.capital), winners, registry);
      var traded := routed.containers != [];
      var end := if traded then RunTape(routed, tape, config.maxBars) else routed;
      var l := end.world.ledger;
      var s3 := SettleBooks(s2, wb, borrow, l);
      (s3, RunResult(wb, borrow, config.capital, if wb in s3.books then s3.books[wb].available else 0, l.Settlement(),
                     RealCount(routed.containers), if traded then Snapshots(end.containers) else [],
                     if traded then |l.fills| else 0,
                     traded && Length(tape, config.maxBars) < |tape|))
  }

  /** Final cash above the allocation, over the traded containers. */
  function Gained(traded: seq<Snapshot>): int {
    if traded == [] then 0
    else
      var t := traded[|traded| - 1];
      Gained(traded[..|traded| - 1]) + t.cash - t.allocation
  }

  lemma {:induction false} GainedIsReleased(cs: seq<State>)
    requires forall i :: 0 <= i < |cs| ==> cs[i].status == Stopped
    ensures Gained(Snapshots(cs)) == Sum(cs, ReleasedPnl())
  {
    if cs != [] {
      var n := |cs| - 1;
      GainedIsReleased(cs[..n]);
      assert Snapshots(cs)[..n] == Snapshots(cs[..n]);
    }
  }

  lemma {:induction false} RouteFirstKeeps(d: Desk, winners: seq<Winner>, k: nat, registry: Registry)
    requires Agreed(d) && d.containers == [] && k <= |winners|
    ensures var r := RouteFirst(d, winners, k, registry);
      && Agreed(r) && r.world.ledger.borrowed == d.world.ledger.borrowed
      && (forall i :: 0 <= i < |r.containers| ==> r.containers[i].status == Active)
      && r.world.ledger.fills == d.world.ledger.fills
  {
    hide Manager.Create; hide DeskInv; hide CreateError;
    if k > 0 {
      RouteFirstKeeps(d, winners, k - 1, registry);
      var r := RouteFirst(d, winners, k - 1, registry);
      var req := RequestOf(winners[k - 1], Share(d.world.ledger.available, |winners|, k - 1));
      CreateKeeps(r, req, registry);
      CreateAdds(r, req, registry);
      CreateKeepsLoan(r, req, registry);
      var e := Manager.Create(r, req, registry);
      forall i | 0 <= i < |e.containers| ensures e.containers[i].status == Active {
        if i < |r.containers| { assert e.containers[i] == e.containers[..|r.containers|][i]; }
      }
    }
  }

  lemma CreateKeepsLoan(d: Desk, req: Manager.Request, registry: Registry)
    ensures var e := Manager.Create(d, req, registry);
      e.world.ledger.borrowed == d.world.ledger.borrowed && e.world.ledger.fills == d.world.ledger.fills
  {
    hide ConfigFor; hide Register; hide Unregister; hide Occupied;
  }

  /** The ledger at the end of a run is settled and worth the loan plus the gains of the traded containers. */
  lemma EndOfRun(s: BooksState, config: RunConfig, winners: seq<Winner>, tape: seq<BarEvent>, registry: Registry)
    requires BorrowError(CreateBook(s, config.user, config.name, config.capital), s.nextWorkbook, config.capital).None?
    ensures var routed := Route(OpenDesk(s.nextWorkbook, config.capital), winners, registry);
      var end := if routed.containers != [] then RunTape(routed, tape, config.maxBars) else routed;
      && Wound(end)
      && end.world.ledger.Settlement() ==
           config.capital + Gained(if routed.containers != [] then Snapshots(end.containers) else [])
  {
    hide RunTape; hide Snapshots; hide RouteFirst; hide DeskInv;
    var d := OpenDesk(s.nextWorkbook, config.capital);
    OpenDeskInv(s.nextWorkbook, config.capital);
    RouteFirstKeeps(d, winners, |winners|, registry);
    var routed := Route(d, winners, registry);
    if routed.containers != [] {
      RunWindsUp(routed, tape, config.maxBars);
      GainedIsReleased(RunTape(routed, tape, config.maxBars).containers);
    } else {
      StoppedIsWound(routed);
    }
  }

  /** Create a workbook, lend all of its capital, and take a settled ledger's settlement back. */
  lemma LendAndReturn(s: BooksState, user: nat, name: string, capital: int, settlement: int)
    requires BooksOk(s)
    ensures var wb := s.nextWorkbook;
      var s1 := CreateBook(s, user, name, capital);
      && wb !in s.books && BooksOk(s1) && (BorrowError(s1, wb, capital).None? <==> capital > 0)
      && (capital > 0 ==>
            var s3 := ReturnCapital(BorrowCapital(s1, wb, capital), wb, s1.nextBorrow, settlement, true);
            && BooksOk(s3) && s3.books.Keys == s.books.Keys + {wb}
              && (forall id :: id in s.books ==> s3.books[id] == s.books[id])
            && s1.nextBorrow in s3.borrows
            && (s3.borrows[s1.nextBorrow].returned <==> settlement >= 0)
            && s3.books[wb].borrowed == (if settlement >= 0 then 0 else capital)
            && s3.books[wb].available == (if settlement >= 0 then settlement else 0))
  {
    hide BookOk;
    var wb := s.nextWorkbook;
    var s1 := CreateBook(s, user, name, capital);
    ApplyKeeps(s, OpCreate(user, name, capital));
    if capital > 0 {
      ApplyKeeps(s1, OpBorrow(wb, capital));
      ApplyKeeps(BorrowCapital(s1, wb, capital), OpReturn(wb, s1.nextBorrow, settlement, true));
    }
  }

  /** Whole-run settlement, for any tape, any strategies and any cut: the run borrows exactly when its
      capital is positive; the workbook is made whole exactly when the settlement is not negative, and
      then its available capital is the starting capital plus the gains of the traded containers. */
  lemma RunSettles(s: BooksState, config: RunConfig, winners: seq<Winner>, tape: seq<BarEvent>, registry: Registry)
    requires BooksOk(s)
    ensures var (s', out) := Execute(s, config, winners, tape, registry);
      && BooksOk(s') && out.workbook == s.nextWorkbook && out.workbook in s'.books
      && (forall id :: id in s.books ==> id in s'.books && s'.books[id] == s.books[id])
      && (config.capital <= 0 ==> s'.borrows == s.borrows && s'.books[out.workbook].available == 0)
      && (config.capital > 0 ==>
            var book := s'.books[out.workbook];
            && out.returned == config.capital + Gained(out.traded)
            && out.borrow in s'.borrows
            && (s'.borrows[out.borrow].returned <==> out.returned >= 0)
            && book.borrowed == (if out.returned >= 0 then 0 else config.capital)
            && book.available == (if out.returned >= 0 then out.returned else 0)
            && out.availableAfter == book.available)
  {
    hide BooksOk; hide RunTape; hide Route; hide Snapshots; hide Gained; hide RealCount; hide BorrowCapital;
    hide ReturnCapital; hide BorrowError;
    var wb := s.nextWorkbook;
    LendAndReturn(s, config.user, config.name, config.capital, 0);
    if config.capital > 0 {
      EndOfRun(s, config, winners, tape, registry);
      var routed := Route(OpenDesk(wb, config.capital), winners, registry);
      var l := (if routed.containers != [] then RunTape(routed, tape, config.maxBars) else routed).world.ledger;
      LendAndReturn(s, config.user, config.name, config.capital, l.Settlement());
    }
  }

  // ---------------------------------------------------------------- a fully routed run

  function TotalCash(traded: seq<Snapshot>): int {
    if traded == [] then 0 else TotalCash(traded[..|traded| - 1]) + traded[|traded| - 1].cash
  }

  /** Containers that received the router's shares gained their final cash less the shares. */
  lemma {:induction false} GainOverShares(traded: seq<Snapshot>, pool: int, n: nat)
    requires |traded| <= n && n > 0 && forall i :: 0 <= i < |traded| ==> traded[i].allocation == Share(pool, n, i)
    ensures Gained(traded) == TotalCash(traded) - SumShares(pool, n, |traded|)
  {
    hide Share;
    if traded != [] { GainOverShares(traded[..|traded| - 1], pool, n); }
  }

  /** A real container traded the winner's stock with the winner's strategy and this share. */
  predicate TradedFor(c: Snapshot, w: Winner, share: int) {
    c.symbol == w.symbol && c.strategy == w.name && c.mode == Real && c.allocation == share
  }

  /** When the pool covers all winners, each of them trades its own strategy on its own stock, the whole
      pool is at work, and what is returned is exactly the final cash of the containers. */
  lemma FullPoolReturnsCash(s: BooksState, config: RunConfig, winners: seq<Winner>, tape: seq<BarEvent>,
                            registry: Registry)
    requires BooksOk(s) && winners != [] && DistinctPairs(winners) && config.capital >= |winners|
    ensures var out := Execute(s, config, winners, tape, registry).1;
      && |out.traded| == |winners| && out.returned == TotalCash(out.traded)
      && (forall i :: 0 <= i < |winners| ==>
            TradedFor(out.traded[i], winners[i], Share(config.capital, |winners|, i)))
  {
    hide BookOk; hide Snapshots; hide Gained; hide RealCount; hide SettleBooks; hide DistinctPairs; hide Share;
    hide RouteFirst;
    RunSettles(s, config, winners, tape, registry);
    var d := OpenDesk(s.nextWorkbook, config.capital);
    EmptyDesk(s.nextWorkbook, config.capital);
    RouteIff(d, winners, registry);
    var routed := Route(d, winners, registry);
    hide Route; hide RunTape; hide Agreed; hide Wound;
    RoutedIsAgreed(d, routed, winners, registry);
    RunWindsUp(routed, tape, config.maxBars);
    var end := RunTape(routed, tape, config.maxBars);
    SharesSurvive(d, routed, end, winners, registry);
    GainOverShares(Snapshots(end.containers), config.capital, |winners|);
    SharesAddUp(config.capital, |winners|);
  }

  lemma EmptyDesk(workbook: nat, borrowed: int)
    requires borrowed >= 0
    ensures Unrouted(OpenDesk(workbook, borrowed))
  {
    OpenDeskInv(workbook, borrowed);
  }

  lemma RoutedIsAgreed(d: Desk, r: Desk, winners: seq<Winner>, registry: Registry)
    requires winners != [] && Routed(d, r, winners, |winners|, registry)
    ensures Agreed(r) && |r.containers| == |winners|
  {
    hide DeskInv;
  }

  lemma SharesSurvive(d: Desk, r: Desk, end: Desk, winners: seq<Winner>, registry: Registry)
    requires winners != [] && Routed(d, r, winners, |winners|, registry) && SamePeople(r, end)
    ensures |end.containers| == |winners|
    ensures forall i :: 0 <= i < |winners| ==>
      TradedFor(SnapshotOf(end.containers[i]), winners[i], Share(d.world.ledger.available, |winners|, i))
  {
    hide DeskInv; hide Share; hide PositionForCapital;
    forall i | 0 <= i < |winners|
      ensures TradedFor(SnapshotOf(end.containers[i]), winners[i], Share(d.world.ledger.available, |winners|, i))
    {
      assert GivenTo(r.containers[i], winners[i], Share(d.world.ledger.available, |winners|, i), registry);
    }
  }
}
