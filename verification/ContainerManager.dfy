/** All containers of one borrow, and what links them to the shared ledger and risk engine. */
module Manager {
  import opened Domain
  import opened Orders
  import opened Exchange
  import opened Ledger
  import opened Risk
  import opened Container

  datatype Step = BarStep(bar: BarEvent) | EventStep(event: SystemEvent) | ExitStep

  /** What the manager does to each container for a bar, for a system event, and at the end of a run. */
  function StepOne(op: Step, c: State, w: World): (State, World) {
    match op
    case BarStep(bar) => if c.status == Active then OnBar(c, w, bar) else (c, w)
    case EventStep(e) => OnSystemEvent(c, w, e)
    case ExitStep =>
      if c.status == Stopped then (c, w)
      else if c.lastBar.Some? then ForceExit(c, w, c.lastBar.value.candle.close)
      else Stop(c, w)
  }

  /** Step the containers from index i on, one after the other. */
  function Sweep(op: Step, cs: seq<State>, w: World, i: nat): (r: (seq<State>, World))
    requires i <= |cs|
    ensures |r.0| == |cs|
    decreases |cs| - i
  {
    if i == |cs| then (cs, w)
    else
      var (c, w1) := StepOne(op, cs[i], w);
      Sweep(op, cs[i := c], w1, i + 1)
  }

  datatype Request = Request(symbol: SymbolId, strategyId: StrategyId, name: string, allocation: int,
    mode: ContainerMode, lastPrice: int)

  /** Shares that 95% of the leveraged capital buys at the last price, at least one. */
  function PositionForCapital(capital: int, price: int, leverage: int): int {
    if price <= 0 || capital <= 0 then 1
    else
      var lev := if leverage > 0 then leverage else 1;
      Max(1, capital * lev * 95 / 100 / price)
  }

  /** The registered strategies: name, symbol and order quantity determine an instance. */
  type Registry = (string, SymbolId, int) -> Strategy

  datatype Desk = Desk(workbook: nat, containers: seq<State>, world: World, nextId: nat)

  function ConfigFor(d: Desk, req: Request, registry: Registry): Config {
    Config(d.nextId, d.workbook, req.symbol, req.strategyId, req.name, Mis, req.allocation, req.allocation,
           registry(req.name, req.symbol, PositionForCapital(req.allocation, req.lastPrice, 5)))
  }

  function CreateError(d: Desk, req: Request, registry: Registry): Option<string> {
    StartError(Created(ConfigFor(d, req, registry), req.mode), d.world)
  }

  /** A container that cannot start is dropped, but its id stays used. */
  function Create(d: Desk, req: Request, registry: Registry): Desk {
    var c := Created(ConfigFor(d, req, registry), req.mode);
    var (c1, w1) := Start(c, d.world);
    d.(nextId := d.nextId + 1, world := w1,
       containers := if CreateError(d, req, registry).None? then d.containers + [c1] else d.containers)
  }

  // ---------------------------------------------------------------- sums over containers

  ghost function Sum(cs: seq<State>, f: State -> int): int {
    if cs == [] then 0 else Sum(cs[..|cs| - 1], f) + f(cs[|cs| - 1])
  }

  lemma {:induction false} SumUpdate(cs: seq<State>, i: nat, c: State, f: State -> int)
    requires i < |cs|
    ensures Sum(cs[i := c], f) == Sum(cs, f) - f(cs[i]) + f(c)
  {
    var n := |cs| - 1;
    if i == n {
      assert cs[i := c][..n] == cs[..n];
    } else {
      assert cs[i := c][..n] == cs[..n][i := c];
      SumUpdate(cs[..n], i, c, f);
    }
  }

  lemma {:induction false} SumAtLeast(cs: seq<State>, i: nat, f: State -> int)
    requires i < |cs| && forall c :: f(c) >= 0
    ensures Sum(cs, f) >= f(cs[i])
  {
    var n := |cs| - 1;
    if i == n { SumNonNegative(cs[..n], f); } else { SumAtLeast(cs[..n], i, f); }
  }

  lemma {:induction false} SumNonNegative(cs: seq<State>, f: State -> int)
    requires forall c :: f(c) >= 0
    ensures Sum(cs, f) >= 0
  {
    if cs != [] { SumNonNegative(cs[..|cs| - 1], f); }
  }

  function SharesOf(s: SymbolId): State -> int {
    (c: State) => if c.config.symbol == s then c.held.position else 0
  }

  function FillsOf(): State -> int { (c: State) => c.fills }

  /** What a stopped container returned above its allocation. */
  function ReleasedPnl(): State -> int {
    (c: State) => if c.status == Stopped then c.held.cash - c.Allocation() else 0
  }

  function ReleasedPaperPnl(): State -> int {
    (c: State) => if c.status == Stopped && c.mode != Real then c.held.cash - c.Allocation() else 0
  }

  // ---------------------------------------------------------------- the desk invariant

  /** Ids are handed out in increasing order; containers are running or stopped, and stopped ones are flat. */
  ghost predicate Population(cs: seq<State>, nextId: nat) {
    && (forall i, j :: 0 <= i < j < |cs| ==> cs[i].config.id < cs[j].config.id)
    && (forall i :: 0 <= i < |cs| ==>
         && cs[i].config.id < nextId && Healthy(cs[i])
         && (cs[i].status == Active || cs[i].status == Stopped)
         && cs[i].registered == (cs[i].status == Active)
         && cs[i].config.realAllocation == cs[i].config.simCash && cs[i].config.tradingMode == Mis)
  }

  /** The ledger's net quantity of every symbol is the sum over its containers, and so are the fills. */
  ghost predicate SharesAgree(cs: seq<State>, w: World) {
    && (forall s :: w.ledger.Net(s) == Sum(cs, SharesOf(s)))
    && |w.ledger.fills| == Sum(cs, FillsOf())
  }

  // ---------------------------------------------------------------- maps over running containers

  ghost function Running<V>(cs: seq<State>, f: State -> V): map<ContainerId, V> {
    if cs == [] then map[]
    else
      var c := cs[|cs| - 1];
      if c.status == Active then Running(cs[..|cs| - 1], f)[c.config.id := f(c)] else Running(cs[..|cs| - 1], f)
  }

  function AllocationOf(): State -> Allocation { (c: State) => Allocation(c.Allocation(), c.mode == Real) }

  function KeyOf(): State -> Key { (c: State) => c.Key() }

  lemma {:induction false} RunningIds<V>(cs: seq<State>, f: State -> V, bound: nat)
    requires forall i :: 0 <= i < |cs| ==> cs[i].config.id < bound
    ensures forall id :: id in Running(cs, f) ==> id < bound
  {
    if cs != [] { RunningIds(cs[..|cs| - 1], f, bound); }
  }

  /** A step that leaves the container running, or stopped, leaves the map alone. */
  lemma {:induction false} RunningSame<V>(cs: seq<State>, f: State -> V, i: nat, c: State)
    requires i < |cs| && c.config.id == cs[i].config.id && c.status == cs[i].status && f(c) == f(cs[i])
    ensures Running(cs[i := c], f) == Running(cs, f)
  {
    var n := |cs| - 1;
    if i == n {
      assert cs[i := c][..n] == cs[..n];
    } else {
      assert cs[i := c][..n] == cs[..n][i := c];
      RunningSame(cs[..n], f, i, c);
    }
  }

  /** A container that stops leaves the map. */
  lemma {:induction false} RunningStop<V>(cs: seq<State>, f: State -> V, i: nat, c: State)
    requires i < |cs| && c.config.id == cs[i].config.id && cs[i].status == Active && c.status == Stopped
    requires forall i, j :: 0 <= i < j < |cs| ==> cs[i].config.id < cs[j].config.id
    ensures Running(cs[i := c], f) == Running(cs, f) - {c.config.id}
    ensures c.config.id in Running(cs, f) && Running(cs, f)[c.config.id] == f(cs[i])
  {
    var n := |cs| - 1;
    if i == n {
      assert cs[i := c][..n] == cs[..n];
      RunningIds(cs[..n], f, c.config.id);
      assert Running(cs, f) - {c.config.id} == Running(cs[..n], f);
    } else {
      assert cs[i := c][..n] == cs[..n][i := c];
      RunningStop(cs[..n], f, i, c);
      assert Running(cs[i := c], f) == Running(cs, f) - {c.config.id};
    }
  }

  lemma {:induction false} NoneRunning<V>(cs: seq<State>, f: State -> V)
    requires forall i :: 0 <= i < |cs| ==> cs[i].status != Active
    ensures Running(cs, f) == map[]
  {
    if cs != [] { NoneRunning(cs[..|cs| - 1], f); }
  }

  /** Running containers hold exactly the ledger's allocations, and the ledger realised exactly what
      stopped containers returned above theirs. */
  ghost predicate MoneyAgrees(cs: seq<State>, w: World) {
    && Conserved(w.ledger, Sum(cs, ReleasedPaperPnl()))
    && w.ledger.realized == Sum(cs, ReleasedPnl())
    && w.ledger.allocs == Running(cs, AllocationOf())
  }

  /** The risk index lists exactly the running containers. */
  ghost predicate IndexAgrees(cs: seq<State>, w: World) {
    IndexOk(w.risk) && w.risk.byId == Running(cs, KeyOf())
  }

  ghost predicate DeskInv(cs: seq<State>, w: World, nextId: nat) {
    Population(cs, nextId) && SharesAgree(cs, w) && MoneyAgrees(cs, w) && IndexAgrees(cs, w)
  }

  lemma PopulationStep(cs: seq<State>, w: World, nextId: nat, i: nat, c: State, w1: World)
    requires Population(cs, nextId) && i < |cs| && Stepped(cs[i], w, c, w1)
    ensures Population(cs[i := c], nextId)
  {}

  lemma SharesStep(cs: seq<State>, w: World, i: nat, c: State, w1: World)
    requires SharesAgree(cs, w) && i < |cs| && Stepped(cs[i], w, c, w1)
    ensures SharesAgree(cs[i := c], w1)
  {
    forall s ensures w1.ledger.Net(s) == Sum(cs[i := c], SharesOf(s)) { SumUpdate(cs, i, c, SharesOf(s)); }
    SumUpdate(cs, i, c, FillsOf());
  }

  lemma MoneyStep(cs: seq<State>, w: World, nextId: nat, i: nat, c: State, w1: World)
    requires Population(cs, nextId) && MoneyAgrees(cs, w) && i < |cs| && Stepped(cs[i], w, c, w1)
    ensures MoneyAgrees(cs[i := c], w1)
  {
    hide Conserved;
    SumUpdate(cs, i, c, ReleasedPnl());
    SumUpdate(cs, i, c, ReleasedPaperPnl());
    var id := cs[i].config.id;
    if c.status != cs[i].status {
      RunningStop(cs, AllocationOf(), i, c);
      PerformConserves(w.ledger, OpGiveBack(id, c.held.cash), Sum(cs, ReleasedPaperPnl()));
      MoneyConserved(GiveBack(w.ledger, id, c.held.cash), w1.ledger, Sum(cs[i := c], ReleasedPaperPnl()));
    } else {
      RunningSame(cs, AllocationOf(), i, c);
      MoneyConserved(w.ledger, w1.ledger, Sum(cs, ReleasedPaperPnl()));
    }
  }

  lemma MoneyConserved(a: LedgerState, b: LedgerState, pnl: int)
    requires Conserved(a, pnl) && Money(a) == Money(b)
    ensures Conserved(b, pnl)
  {}

  lemma IndexStep(cs: seq<State>, w: World, nextId: nat, i: nat, c: State, w1: World)
    requires Population(cs, nextId) && IndexAgrees(cs, w) && i < |cs| && Stepped(cs[i], w, c, w1)
    ensures IndexAgrees(cs[i := c], w1)
  {
    hide IndexOk;
    if c.status != cs[i].status {
      RunningStop(cs, KeyOf(), i, c);
      IndexKept(w.risk, cs[i].Key(), cs[i].config.id);
    } else {
      RunningSame(cs, KeyOf(), i, c);
    }
  }

  lemma DeskStep(cs: seq<State>, w: World, nextId: nat, i: nat, c: State, w1: World)
    requires DeskInv(cs, w, nextId) && i < |cs| && Stepped(cs[i], w, c, w1)
    ensures DeskInv(cs[i := c], w1, nextId)
  {
    hide Stepped; hide Population; hide SharesAgree; hide MoneyAgrees; hide IndexAgrees;
    PopulationStep(cs, w, nextId, i, c, w1);
    SharesStep(cs, w, i, c, w1);
    MoneyStep(cs, w, nextId, i, c, w1);
    IndexStep(cs, w, nextId, i, c, w1);
  }

  // ---------------------------------------------------------------- sweeping over all containers

  /** The world a step starts from: a system event reaches the risk engine first. */
  function Before(op: Step, w: World): World {
    if op.EventStep? then w.(risk := OnEvent(w.risk, op.event)) else w
  }

  lemma OneSteps(op: Step, c: State, w: World)
    requires Backed(c, w) && Healthy(c) && (c.status == Active || c.status == Stopped)
    ensures var r := StepOne(op, c, w); Stepped(c, Before(op, w), r.0, r.1)
    ensures op == EventStep(MisSquareoffWarning) && c.config.tradingMode == Mis ==>
      StepOne(op, c, w).0.held.position == 0
    ensures op == EventStep(KillSwitch) || op == ExitStep ==> StepOne(op, c, w).0.status == Stopped
  {
    hide OnBar; hide OnSystemEvent; hide ForceExit; hide Stop; hide Stepped; hide OnEvent;
    match op
    case BarStep(bar) => if c.status == Active { OnBarSteps(c, w, bar); } else { NothingSteps(c, w); }
    case EventStep(e) => OnEventSteps(c, w, e);
    case ExitStep =>
      if c.status == Stopped { NothingSteps(c, w); }
      else { ExitSteps(c, w, if c.lastBar.Some? then c.lastBar.value.candle.close else 0); }
  }

  lemma InvBacks(cs: seq<State>, w: World, nextId: nat, i: nat)
    requires DeskInv(cs, w, nextId) && i < |cs|
    ensures Backed(cs[i], w) && Healthy(cs[i]) && (cs[i].status == Active || cs[i].status == Stopped)
      && cs[i].config.tradingMode == Mis
  {
    hide Running; hide Conserved; hide IndexOk;
    SumAtLeast(cs, i, SharesOf(cs[i].config.symbol));
  }

  lemma BeforeKeepsInv(op: Step, cs: seq<State>, w: World, nextId: nat)
    requires DeskInv(cs, w, nextId)
    ensures DeskInv(cs, Before(op, w), nextId)
    ensures var b := Before(op, w);
      Before(op, b).risk.misSquareoff == b.risk.misSquareoff && Before(op, b).risk.killSwitch == b.risk.killSwitch
  {
    hide Running; hide Sum;
  }

  /** What a container may look like after a sweep. */
  ghost predicate Swept(op: Step, c: State, c': State, mis: bool) {
    && c'.config == c.config && c'.mode == c.mode
    && (op == EventStep(MisSquareoffWarning) ==> c'.held.position == 0)
    && (op == EventStep(KillSwitch) || op == ExitStep ==> c'.status == Stopped)
    && (mis ==> c'.held.position <= c.held.position)
    && (c.status == Stopped ==> c'.status == Stopped && c'.held == c.held)
  }

  /** A sweep keeps the desk invariant; the square-off warning flattens every container and the kill
      switch and the final exit stop every container. */
  lemma {:induction false} SweepKeeps(op: Step, cs: seq<State>, w: World, nextId: nat, i: nat)
    requires DeskInv(cs, w, nextId) && i <= |cs|
    ensures var r := Sweep(op, cs, w, i);
      && DeskInv(r.0, r.1, nextId)
      && r.0[..i] == cs[..i]
      && (forall j :: i <= j < |cs| ==> Swept(op, cs[j], r.0[j], Before(op, w).risk.misSquareoff))
      && r.1.risk.misSquareoff == (if i == |cs| then w else Before(op, w)).risk.misSquareoff
      && r.1.risk.killSwitch == (if i == |cs| then w else Before(op, w)).risk.killSwitch
      && r.1.venue == w.venue && r.1.ledger.borrowed == w.ledger.borrowed
    decreases |cs| - i
  {
    hide StepOne; hide DeskInv; hide Backed; hide Healthy; hide Before;
    if i < |cs| {
      InvBacks(cs, w, nextId, i);
      BeforeKeepsInv(op, cs, w, nextId);
      OneSteps(op, cs[i], w);
      var (c, w1) := StepOne(op, cs[i], w);
      DeskStep(cs, Before(op, w), nextId, i, c, w1);
      SteppedIsSwept(op, cs[i], w, c, w1);
      hide Stepped; hide Swept;
      SweepKeeps(op, cs[i := c], w1, nextId, i + 1);
      BeforeFlags(op, w, w1);
      var r := Sweep(op, cs[i := c], w1, i + 1);
      assert r.0[i] == r.0[..i + 1][i] == c;
      assert r.0[..i] == r.0[..i + 1][..i] == cs[i := c][..i + 1][..i] == cs[..i];
    }
  }

  lemma SteppedIsSwept(op: Step, c: State, w: World, c': State, w': World)
    requires Stepped(c, Before(op, w), c', w')
    requires op == EventStep(MisSquareoffWarning) ==> c'.held.position == 0
    requires op == EventStep(KillSwitch) || op == ExitStep ==> c'.status == Stopped
    requires c.config.tradingMode == Mis
    requires c.status == Active || c.status == Stopped
    ensures Swept(op, c, c', Before(op, w).risk.misSquareoff)
    ensures w'.risk.misSquareoff == Before(op, w).risk.misSquareoff
      && w'.risk.killSwitch == Before(op, w).risk.killSwitch
    ensures w'.venue == w.venue && w'.ledger.borrowed == w.ledger.borrowed
  {
    assert Money(w'.ledger).borrowed == w.ledger.borrowed;
  }

  lemma BeforeFlags(op: Step, w: World, w1: World)
    requires w1.risk.misSquareoff == Before(op, w).risk.misSquareoff
      && w1.risk.killSwitch == Before(op, w).risk.killSwitch
    ensures Before(op, w1).risk.misSquareoff == w1.risk.misSquareoff
      && Before(op, w1).risk.killSwitch == w1.risk.killSwitch
  {}

  // ---------------------------------------------------------------- creating, killing, upgrading

  lemma SumAppend(cs: seq<State>, c: State, f: State -> int)
    ensures Sum(cs + [c], f) == Sum(cs, f) + f(c)
  {
    assert (cs + [c])[..|cs|] == cs;
  }

  lemma RunningAppend<V>(cs: seq<State>, c: State, f: State -> V)
    requires c.status == Active
    ensures Running(cs + [c], f) == Running(cs, f)[c.config.id := f(c)]
  {
    assert (cs + [c])[..|cs|] == cs;
  }

  /** A fresh id is neither allocated nor registered. */
  lemma FreshId(cs: seq<State>, w: World, nextId: nat)
    requires DeskInv(cs, w, nextId)
    ensures nextId !in w.ledger.allocs && nextId !in w.risk.byId
    ensures forall k :: Occupied(w.risk, k, nextId) <==> k in w.risk.byKey
  {
    hide Conserved;
    RunningIds(cs, AllocationOf(), nextId);
    RunningIds(cs, KeyOf(), nextId);
  }

  /** Creating a container, started or dropped, keeps the desk invariant; it starts exactly when its
      key is free and its capital is available, and takes exactly its allocation. */
  lemma CreateKeeps(d: Desk, req: Request, registry: Registry)
    requires DeskInv(d.containers, d.world, d.nextId)
    ensures var d1 := Create(d, req, registry); DeskInv(d1.containers, d1.world, d1.nextId)
    ensures CreateError(d, req, registry).None? <==>
      Key(d.workbook, req.symbol, req.strategyId) !in d.world.risk.byKey && req.allocation > 0 &&
      (req.mode == Real ==> req.allocation <= d.world.ledger.available)
    ensures var l, l1 := d.world.ledger, Create(d, req, registry).world.ledger;
      l1.available == l.available
        - (if CreateError(d, req, registry).None? && req.mode == Real then req.allocation else 0)
  {
    hide DeskInv; hide ConfigFor;
    FreshId(d.containers, d.world, d.nextId);
    ConfigFacts(d, req, registry);
    var c := Created(ConfigFor(d, req, registry), req.mode);
    IndexFresh(d.containers, d.world, d.nextId, c.Key());
    if CreateError(d, req, registry).None? {
      var (c1, w1) := Start(c, d.world);
      AppendKeeps(d.containers, d.world, d.nextId, c1, w1);
    } else {
      RetireId(d.containers, d.world, d.nextId);
    }
  }

  lemma ConfigFacts(d: Desk, req: Request, registry: Registry)
    ensures var c := Created(ConfigFor(d, req, registry), req.mode);
      && c.config.id == d.nextId && c.Key() == Key(d.workbook, req.symbol, req.strategyId)
      && c.Allocation() == req.allocation && c.config.tradingMode == Mis
      && c.config.realAllocation == c.config.simCash
  {
    hide PositionForCapital;
  }

  lemma IndexFresh(cs: seq<State>, w: World, nextId: nat, k: Key)
    requires DeskInv(cs, w, nextId) && nextId !in w.risk.byId
    ensures k !in w.risk.byKey ==>
      Unregister(Register(w.risk, k, nextId), nextId) == w.risk && IndexOk(Register(w.risk, k, nextId))
  {
    hide Population; hide SharesAgree; hide MoneyAgrees;
    IndexKept(w.risk, k, nextId);
  }

  lemma RetireId(cs: seq<State>, w: World, nextId: nat)
    requires DeskInv(cs, w, nextId)
    ensures DeskInv(cs, w, nextId + 1)
  {
    hide SharesAgree; hide MoneyAgrees; hide IndexAgrees;
  }

  lemma AppendKeeps(cs: seq<State>, w: World, nextId: nat, c: State, w1: World)
    requires DeskInv(cs, w, nextId)
    requires c.config.id == nextId && c.status == Active && c.registered && c.held.position == 0 && c.fills == 0
    requires c.config.realAllocation == c.config.simCash && c.config.tradingMode == Mis
    requires TakeError(w.ledger, nextId, c.Allocation(), c.mode).None? && c.Key() !in w.risk.byKey
      && nextId !in w.risk.byId
    requires w1 == w.(risk := Register(w.risk, c.Key(), nextId),
      ledger := Take(w.ledger, nextId, c.Allocation(), c.mode))
    ensures DeskInv(cs + [c], w1, nextId + 1)
  {
    hide Sum; hide Running; hide Conserved; hide IndexOk;
    forall s { SumAppend(cs, c, SharesOf(s)); }
    SumAppend(cs, c, FillsOf());
    SumAppend(cs, c, ReleasedPnl());
    SumAppend(cs, c, ReleasedPaperPnl());
    RunningAppend(cs, c, AllocationOf());
    RunningAppend(cs, c, KeyOf());
    PerformConserves(w.ledger, OpTake(nextId, c.Allocation(), c.mode), Sum(cs, ReleasedPaperPnl()));
    IndexKept(w.risk, c.Key(), nextId);
  }

  /** Index of the container with this id, if any. */
  function Find(cs: seq<State>, id: ContainerId): Option<nat> {
    if cs == [] then None
    else match Find(cs[..|cs| - 1], id)
      case Some(i) => Some(i)
      case None => if cs[|cs| - 1].config.id == id then Some(|cs| - 1) else None
  }

  lemma {:induction false} FindIsIndex(cs: seq<State>, id: ContainerId)
    ensures Find(cs, id).Some? ==> Find(cs, id).value < |cs| && cs[Find(cs, id).value].config.id == id
  {
    if cs != [] { FindIsIndex(cs[..|cs| - 1], id); }
  }

  /** Kill one container: close it at its last price. */
  function Kill(d: Desk, id: ContainerId): Desk {
    FindIsIndex(d.containers, id);
    match Find(d.containers, id)
    case None => d
    case Some(i) =>
      var (c, w) := StepOne(ExitStep, d.containers[i], d.world);
      d.(containers := d.containers[i := c], world := w)
  }

  function UpgradeOne(d: Desk, id: ContainerId, m: ContainerMode): Desk {
    FindIsIndex(d.containers, id);
    match Find(d.containers, id)
    case None => d
    case Some(i) =>
      var (c, w) := Upgrade(d.containers[i], d.world, m);
      d.(containers := d.containers[i := c], world := w)
  }

  lemma KillKeeps(d: Desk, id: ContainerId)
    requires DeskInv(d.containers, d.world, d.nextId)
    ensures var d1 := Kill(d, id); DeskInv(d1.containers, d1.world, d1.nextId)
  {
    hide DeskInv; hide StepOne; hide Backed; hide Healthy; hide Stepped;
    FindIsIndex(d.containers, id);
    if Find(d.containers, id).Some? {
      var i := Find(d.containers, id).value;
      InvBacks(d.containers, d.world, d.nextId, i);
      OneSteps(ExitStep, d.containers[i], d.world);
      var (c, w) := StepOne(ExitStep, d.containers[i], d.world);
      DeskStep(d.containers, d.world, d.nextId, i, c, w);
    }
  }

  lemma {:induction false} RunningChange<V>(cs: seq<State>, f: State -> V, i: nat, c: State)
    requires i < |cs| && c.config.id == cs[i].config.id && cs[i].status == Active && c.status == Active
    requires forall i, j :: 0 <= i < j < |cs| ==> cs[i].config.id < cs[j].config.id
    ensures Running(cs[i := c], f) == Running(cs, f)[c.config.id := f(c)]
    ensures c.config.id in Running(cs, f) && Running(cs, f)[c.config.id] == f(cs[i])
  {
    var n := |cs| - 1;
    if i == n {
      assert cs[i := c][..n] == cs[..n];
    } else {
      assert cs[i := c][..n] == cs[..n][i := c];
      RunningChange(cs[..n], f, i, c);
    }
  }

  lemma UpgradeKeeps(d: Desk, id: ContainerId, m: ContainerMode)
    requires DeskInv(d.containers, d.world, d.nextId)
    ensures var d1 := UpgradeOne(d, id, m); DeskInv(d1.containers, d1.world, d1.nextId)
  {
    FindIsIndex(d.containers, id);
    if Find(d.containers, id).Some? {
      var i := Find(d.containers, id).value;
      UpgradeAt(d.containers, d.world, d.nextId, i, m);
    }
  }

  lemma UpgradeAt(cs: seq<State>, w: World, nextId: nat, i: nat, m: ContainerMode)
    requires DeskInv(cs, w, nextId) && i < |cs|
    ensures var (c, w1) := Upgrade(cs[i], w, m); DeskInv(cs[i := c], w1, nextId)
  {
    hide Sum; hide Running; hide Conserved; hide IndexOk;
    var (c, w1) := Upgrade(cs[i], w, m);
    if UpgradeError(cs[i], w, m).Some? {
      assert cs[i := c] == cs;
    } else {
      forall s { SumUpdate(cs, i, c, SharesOf(s)); }
      SumUpdate(cs, i, c, FillsOf());
      SumUpdate(cs, i, c, ReleasedPnl());
      SumUpdate(cs, i, c, ReleasedPaperPnl());
      RunningChange(cs, AllocationOf(), i, c);
      RunningSame(cs, KeyOf(), i, c);
      PerformConserves(w.ledger, OpCommit(cs[i].config.id), Sum(cs, ReleasedPaperPnl()));
    }
  }

  // ---------------------------------------------------------------- every reachable desk

  datatype DeskOp =
    | DoCreate(req: Request)
    | DoKill(id: ContainerId)
    | DoUpgrade(id: ContainerId, mode: ContainerMode)
    | DoSweep(step: Step)

  function Act(d: Desk, op: DeskOp, registry: Registry): Desk {
    match op
    case DoCreate(req) => Create(d, req, registry)
    case DoKill(id) => Kill(d, id)
    case DoUpgrade(id, m) => UpgradeOne(d, id, m)
    case DoSweep(step) =>
      var (cs, w) := Sweep(step, d.containers, d.world, 0);
      d.(containers := cs, world := w)
  }

  function OpenDesk(workbook: nat, borrowed: int): Desk {
    Desk(workbook, [], World(DEFAULT_VENUE, 1, Opened(borrowed), Fresh(DEFAULT_LIMITS)), 1)
  }

  lemma OpenDeskInv(workbook: nat, borrowed: int)
    ensures var d := OpenDesk(workbook, borrowed); DeskInv(d.containers, d.world, d.nextId)
  {}

  function Reached(workbook: nat, borrowed: int, ops: seq<DeskOp>, registry: Registry): Desk {
    if ops == [] then OpenDesk(workbook, borrowed)
    else Act(Reached(workbook, borrowed, ops[..|ops| - 1], registry), ops[|ops| - 1], registry)
  }

  /** At every point of every run, whatever the strategies do: the ledger's position of each symbol is
      the sum over its containers, its fills are theirs, and capital is conserved at both levels. */
  lemma {:induction false} ReachedInv(workbook: nat, borrowed: int, ops: seq<DeskOp>, registry: Registry)
    ensures var d := Reached(workbook, borrowed, ops, registry); DeskInv(d.containers, d.world, d.nextId)
  {
    hide DeskInv; hide Create; hide Kill; hide UpgradeOne; hide Sweep;
    if ops == [] {
      OpenDeskInv(workbook, borrowed);
    } else {
      var n := |ops| - 1;
      ReachedInv(workbook, borrowed, ops[..n], registry);
      var d := Reached(workbook, borrowed, ops[..n], registry);
      match ops[n] {
        case DoCreate(req) => CreateKeeps(d, req, registry);
        case DoKill(id) => KillKeeps(d, id);
        case DoUpgrade(id, m) => UpgradeKeeps(d, id, m);
        case DoSweep(step) => SweepKeeps(step, d.containers, d.world, d.nextId, 0);
      }
    }
  }

  // ---------------------------------------------------------------- the manager as an object

  class ContainerManager {
    const workbook: nat
    const venue: SimulatedExchange
    const risk: RiskEngine
    const ledger: PortfolioLedger
    const registry: Registry
    var containers: seq<TradingContainer>
    var nextId: nat

    /** Distinct containers that share the manager's venue, risk engine and ledger. */
    ghost predicate Valid()
      reads this
    {
      && (forall i, j :: 0 <= i < j < |containers| ==> containers[i] != containers[j])
      && (forall i :: 0 <= i < |containers| ==>
            containers[i].venue == venue && containers[i].risk == risk && containers[i].ledger == ledger)
    }

    function Shared(): World
      reads venue, risk, ledger
    {
      World(venue.config, venue.nextOrderId, ledger.State(), risk.State())
    }

    ghost function Values(): (r: seq<State>)
      reads this, containers
      ensures |r| == |containers| && forall i :: 0 <= i < |r| ==> r[i] == containers[i].Self()
    {
      seq(|containers|, i requires 0 <= i < |containers| reads this, containers => containers[i].Self())
    }

    ghost function ToDesk(): Desk
      reads this, containers, venue, risk, ledger
    {
      Desk(workbook, Values(), Shared(), nextId)
    }

    constructor (workbook: nat, venue: SimulatedExchange, risk: RiskEngine, ledger: PortfolioLedger, registry: Registry)
      ensures Valid() && containers == [] && nextId == 1
      ensures this.workbook == workbook && this.venue == venue && this.risk == risk && this.ledger == ledger
        && this.registry == registry
    {
      this.workbook, this.venue, this.risk, this.ledger, this.registry := workbook, venue, risk, ledger, registry;
      containers, nextId := [], 1;
    }

    method CreateContainer(req: Request) returns (id: Option<ContainerId>)
      requires Valid()
      modifies this, risk, ledger
      ensures Valid() && ToDesk() == Create(old(ToDesk()), req, registry)
      ensures id == if CreateError(old(ToDesk()), req, registry).None? then Some(old(nextId)) else None
      ensures forall c :: c in containers ==> c in old(containers) || fresh(c)
    {
      hide Start; hide StartError; hide PositionForCapital;
      var qty := PositionForCapital(req.allocation, req.lastPrice, 5);
      var config := Config(nextId, workbook, req.symbol, req.strategyId, req.name, Mis, req.allocation, req.allocation,
        registry(req.name, req.symbol, qty));
      nextId := nextId + 1;
      var c := new TradingContainer(config, req.mode, venue, risk, ledger);
      var started := c.StartUp();
      if started != Done { return None; }
      containers := containers + [c];
      assert Values() == old(Values()) + [c.Self()];
      id := Some(config.id);
    }

    method StepAt(op: Step, i: nat)
      requires Valid() && i < |containers|
      modifies containers[i], venue, risk, ledger
      ensures (containers[i].Self(), Shared()) == StepOne(op, old(containers[i].Self()), old(Shared()))
      ensures Values() == old(Values())[i := containers[i].Self()]
    {
      hide OnBar; hide OnSystemEvent; hide ForceExit; hide Stop;
      var c := containers[i];
      match op {
        case BarStep(bar) =>
          if c.status == Active { c.TakeBar(bar); }
        case EventStep(e) => c.TakeEvent(e);
        case ExitStep =>
          if c.status != Stopped {
            if c.lastBar.Some? { c.ForceExitAt(c.lastBar.value.candle.close); } else { c.StopNow(); }
          }
      }
    }

    /** on_bar, on_system_event and force_exit_remaining: visit every container in order. */
    method VisitAll(op: Step)
      requires Valid()
      modifies containers, venue, risk, ledger
      ensures (Values(), Shared()) == Sweep(op, old(Values()), old(Shared()), 0)
    {
      hide StepOne;
      var i := 0;
      while i < |containers|
        invariant i <= |containers|
        invariant Sweep(op, Values(), Shared(), i) == Sweep(op, old(Values()), old(Shared()), 0)
      {
        StepAt(op, i);
        i := i + 1;
      }
    }

    method FindContainer(id: ContainerId) returns (i: Option<nat>)
      requires Valid()
      ensures i == Find(Values(), id) && (i.Some? ==> i.value < |containers|)
    {
      var k := 0;
      while k < |containers|
        invariant k <= |containers| && Find(Values()[..k], id) == None
      {
        assert Values()[..k + 1][..k] == Values()[..k];
        if containers[k].config.id == id {
          FindPrefix(Values(), id, k + 1);
          return Some(k);
        }
        k := k + 1;
      }
      assert Values()[..k] == Values();
      i := None;
    }

    method KillContainer(id: ContainerId)
      requires Valid()
      modifies containers, venue, risk, ledger
      ensures ToDesk() == Kill(old(ToDesk()), id)
    {
      hide StepOne;
      var i := FindContainer(id);
      if i.Some? { StepAt(ExitStep, i.value); }
    }

    method UpgradeContainer(id: ContainerId, m: ContainerMode) returns (r: OpResult)
      requires Valid()
      modifies containers, ledger
      ensures ToDesk() == UpgradeOne(old(ToDesk()), id, m)
      ensures Find(old(Values()), id) == None ==> r == Failed("unknown container")
      ensures Find(old(Values()), id).Some? ==>
        var i := Find(old(Values()), id).value;
        i < |old(Values())| && var e := UpgradeError(old(Values())[i], old(Shared()), m);
          r == if e.Some? then Failed(e.value) else Done
    {
      hide Upgrade; hide UpgradeError;
      var i := FindContainer(id);
      if i.None? { return Failed("unknown container"); }
      r := containers[i.value].UpgradeTo(m);
      assert Values() == old(Values())[i.value := containers[i.value].Self()];
    }
  }

  /** The first container with an id in a prefix is the first one. */
  lemma {:induction false} FindPrefix(cs: seq<State>, id: ContainerId, k: nat)
    requires k <= |cs| && Find(cs[..k], id).Some?
    ensures Find(cs, id) == Find(cs[..k], id)
  {
    if k < |cs| {
      assert cs[..|cs| - 1][..k] == cs[..k];
      FindPrefix(cs[..|cs| - 1], id, k);
    } else {
      assert cs[..k] == cs;
    }
  }
}
