/** The default router: splits the pool over the winning evaluations and sizes their orders. */
module Router {
  import opened Domain
  import opened Orders
  import opened Exchange
  import opened Holdings
  import opened Ledger
  import opened Risk
  import opened Container
  import opened Manager

  // ---------------------------------------------------------------- the router's split

  /** A (strategy, symbol) pair whose evaluation made money. */
  datatype Winner = Winner(symbol: SymbolId, strategyId: StrategyId, name: string, lastPrice: int)

  /** The k-th winner's share of the pool: equal parts, the remainder goes to the first. */
  function Share(pool: int, n: nat, k: nat): int
    requires n > 0
  {
    TDiv(pool, n) + if k == 0 then pool - TDiv(pool, n) * n else 0
  }

  function RequestOf(w: Winner, allocation: int): Manager.Request {
    Manager.Request(w.symbol, w.strategyId, w.name, allocation, Real, w.lastPrice)
  }

  /** The desk after the first k winners were given containers. */
  function RouteFirst(d: Desk, winners: seq<Winner>, k: nat, registry: Registry): Desk
    requires k <= |winners|
  {
    if k == 0 then d
    else
      var req := RequestOf(winners[k - 1], Share(d.world.ledger.available, |winners|, k - 1));
      Manager.Create(RouteFirst(d, winners, k - 1, registry), req, registry)
  }

  function Route(d: Desk, winners: seq<Winner>, registry: Registry): Desk {
    RouteFirst(d, winners, |winners|, registry)
  }

  function KeyFor(workbook: nat, w: Winner): Key { Key(workbook, w.symbol, w.strategyId) }

  ghost predicate DistinctPairs(winners: seq<Winner>) {
    forall i, j :: 0 <= i < j < |winners| ==>
      winners[i].symbol != winners[j].symbol || winners[i].strategyId != winners[j].strategyId
  }

  function SumShares(pool: int, n: nat, k: nat): int
    requires n > 0
  {
    if k == 0 then 0 else SumShares(pool, n, k - 1) + Share(pool, n, k - 1)
  }

  /** The parts add up to the pool, whatever the remainder. */
  lemma SharesAddUp(pool: int, n: nat)
    requires n > 0
    ensures SumShares(pool, n, n) == pool
  {
    hide TDiv;
    SharesUpTo(pool, n, n);
    assert n * TDiv(pool, n) == TDiv(pool, n) * n;
  }

  lemma {:induction false} SharesUpTo(pool: int, n: nat, k: nat)
    requires n > 0
    ensures SumShares(pool, n, k) == k * TDiv(pool, n) + if k == 0 then 0 else pool - TDiv(pool, n) * n
  {
    hide TDiv;
    if k > 0 {
      SharesUpTo(pool, n, k - 1);
      var base := TDiv(pool, n);
      assert k * base == (k - 1) * base + base;
    }
  }

  lemma SharesPositive(pool: int, n: nat, k: nat)
    requires n > 0 && pool >= 0
    ensures Share(pool, n, k) >= 0
    ensures pool >= n ==> Share(pool, n, k) > 0
    ensures pool < n && k > 0 ==> Share(pool, n, k) == 0
  {
    Quotient(pool, n);
    assert pool / n > 0 ==> (pool / n) * n >= n;
  }

  lemma {:induction false} SharesGrow(pool: int, n: nat, k: nat, m: nat)
    requires n > 0 && pool >= 0 && k <= m
    ensures SumShares(pool, n, k) <= SumShares(pool, n, m)
  {
    hide Share;
    if k < m {
      SharesGrow(pool, n, k, m - 1);
      SharesPositive(pool, n, m - 1);
    }
  }

  /** Every winner but the first gets the n-th part of the pool, to the paisa below, and the first less than
      n paise more. */
  lemma SharesAreFair(pool: nat, n: nat, k: nat)
    requires 0 < k < n
    ensures Share(pool, n, k) * n <= pool < Share(pool, n, k) * n + n
    ensures 0 <= Share(pool, n, 0) - Share(pool, n, k) < n
  {
    Quotient(pool, n);
  }

  /** An empty desk that has just received its borrowed pool. */
  ghost predicate Unrouted(d: Desk) {
    && DeskInv(d.containers, d.world, d.nextId)
    && d.containers == [] && d.world.risk.byKey == map[] && d.world.ledger.available >= 0
  }

  /** Container c is the one the router gives to winner k out of n. */
  ghost predicate GivenTo(c: State, w: Winner, share: int, registry: Registry) {
    && c.config.symbol == w.symbol && c.config.strategyId == w.strategyId && c.config.name == w.name
    && c.config.strategy == registry(w.name, w.symbol, PositionForCapital(share, w.lastPrice, 5))
    && c.mode == Real && c.Allocation() == share && c.held.cash == share && c.status == Active
  }

  /** dk is the desk d after the first k winners each received a container with their share. */
  ghost predicate Routed(d: Desk, dk: Desk, winners: seq<Winner>, k: nat, registry: Registry)
    requires k <= |winners| && winners != []
  {
    var pool, n := d.world.ledger.available, |winners|;
    && DeskInv(dk.containers, dk.world, dk.nextId) && dk.workbook == d.workbook
    && |dk.containers| == k
    && (forall i :: 0 <= i < k ==> GivenTo(dk.containers[i], winners[i], Share(pool, n, i), registry))
    && dk.world.ledger.available == pool - SumShares(pool, n, k)
    && dk.world.risk.byKey.Keys == KeysOf(d.workbook, winners[..k])
  }

  function KeysOf(workbook: nat, winners: seq<Winner>): set<Key> {
    set i | 0 <= i < |winners| :: KeyFor(workbook, winners[i])
  }

  lemma KeysMore(workbook: nat, winners: seq<Winner>, k: nat)
    requires DistinctPairs(winners) && k < |winners|
    ensures KeyFor(workbook, winners[k]) !in KeysOf(workbook, winners[..k])
    ensures KeysOf(workbook, winners[..k + 1]) == KeysOf(workbook, winners[..k]) + {KeyFor(workbook, winners[k])}
  {
    var a, b := winners[..k], winners[..k + 1];
    assert forall i :: 0 <= i < k ==> b[i] == a[i];
    forall key | key in KeysOf(workbook, a) + {KeyFor(workbook, winners[k])} ensures key in KeysOf(workbook, b) {
      if key == KeyFor(workbook, winners[k]) { assert key == KeyFor(workbook, b[k]); }
      else { var i :| 0 <= i < k && key == KeyFor(workbook, a[i]); assert key == KeyFor(workbook, b[i]); }
    }
  }

  /** What creating one container adds to the desk. */
  lemma CreateAdds(d: Desk, req: Manager.Request, registry: Registry)
    ensures var d1 := Manager.Create(d, req, registry);
      && d1.workbook == d.workbook
      && (CreateError(d, req, registry).Some? ==> d1.containers == d.containers)
      && (CreateError(d, req, registry).None? ==>
            && |d1.containers| == |d.containers| + 1 && d1.containers[..|d.containers|] == d.containers
            && CreatedFor(d1.containers[|d.containers|], req, registry)
            && d1.world.risk.byKey.Keys == d.world.risk.byKey.Keys + {Key(d.workbook, req.symbol, req.strategyId)})
  {
    hide PositionForCapital; hide TakeError; hide Take;
  }

  ghost predicate CreatedFor(c: State, req: Manager.Request, registry: Registry) {
    && c.config.symbol == req.symbol && c.config.strategyId == req.strategyId && c.mode == req.mode
    && c.config.name == req.name
    && c.config.strategy == registry(req.name, req.symbol, PositionForCapital(req.allocation, req.lastPrice, 5))
    && c.Allocation() == req.allocation && c.held.cash == req.allocation && c.status == Active
  }

  lemma RoutedNext(d: Desk, dk: Desk, winners: seq<Winner>, k: nat, registry: Registry)
    requires Unrouted(d) && DistinctPairs(winners) && k < |winners| && d.world.ledger.available >= |winners|
    requires Routed(d, dk, winners, k, registry)
    ensures Routed(d, Manager.Create(dk, RequestOf(winners[k], Share(d.world.ledger.available, |winners|, k)),
      registry), winners, k + 1, registry)
  {
    hide DeskInv; hide Manager.Create; hide CreateError; hide Share; hide DistinctPairs; hide KeysOf;
    var pool, n := d.world.ledger.available, |winners|;
    var req := RequestOf(winners[k], Share(pool, n, k));
    SharesPositive(pool, n, k);
    SharesGrow(pool, n, k + 1, n);
    SharesAddUp(pool, n);
    KeysMore(d.workbook, winners, k);
    CreateKeeps(dk, req, registry);
    CreateAdds(dk, req, registry);
    var d1 := Manager.Create(dk, req, registry);
    forall i | 0 <= i < k + 1 ensures GivenTo(d1.containers[i], winners[i], Share(pool, n, i), registry) {
      if i < k { assert d1.containers[i] == d1.containers[..k][i]; }
    }
  }

  /** When every winner gets at least a paisa, each create starts its container with its share. */
  lemma {:induction false} RouteStep(d: Desk, winners: seq<Winner>, k: nat, registry: Registry)
    requires Unrouted(d) && DistinctPairs(winners) && winners != [] && d.world.ledger.available >= |winners|
      && k <= |winners|
    ensures Routed(d, RouteFirst(d, winners, k, registry), winners, k, registry)
  {
    hide Unrouted; hide Routed; hide Share; hide Manager.Create; hide DistinctPairs;
    if k == 0 {
      NoneRouted(d, winners, registry);
    } else {
      RouteStep(d, winners, k - 1, registry);
      RoutedNext(d, RouteFirst(d, winners, k - 1, registry), winners, k - 1, registry);
    }
  }

  lemma NoneRouted(d: Desk, winners: seq<Winner>, registry: Registry)
    requires Unrouted(d) && winners != []
    ensures Routed(d, d, winners, 0, registry)
  {
    hide DeskInv;
    assert winners[..0] == [];
  }

  /** With fewer paise than winners, only the first winner can start. */
  lemma {:induction false} PoorRoute(d: Desk, winners: seq<Winner>, k: nat, registry: Registry)
    requires Unrouted(d) && winners != [] && d.world.ledger.available < |winners| && k <= |winners|
    ensures var dk := RouteFirst(d, winners, k, registry);
      DeskInv(dk.containers, dk.world, dk.nextId)
        && |dk.containers| <= (if k == 0 || d.world.ledger.available == 0 then 0 else 1)
  {
    hide DeskInv; hide Manager.Create; hide CreateError; hide Share; hide CreatedFor;
    if k > 0 {
      hide Unrouted;
      PoorRoute(d, winners, k - 1, registry);
      var dk := RouteFirst(d, winners, k - 1, registry);
      var req := RequestOf(winners[k - 1], Share(d.world.ledger.available, |winners|, k - 1));
      PoorShare(d, |winners|, k - 1);
      CreateKeeps(dk, req, registry);
      CreateAdds(dk, req, registry);
    }
  }

  lemma PoorShare(d: Desk, n: nat, k: nat)
    requires Unrouted(d) && d.world.ledger.available < n
    ensures k > 0 || d.world.ledger.available == 0 ==> Share(d.world.ledger.available, n, k) <= 0
  {
    hide DeskInv;
    SharesPositive(d.world.ledger.available, n, k);
  }

  /** The router gives every winner a container exactly when the pool has a paisa for each; then each
      holds its share, the shares add up to the pool and nothing is left available. */
  lemma RouteIff(d: Desk, winners: seq<Winner>, registry: Registry)
    requires Unrouted(d) && DistinctPairs(winners) && winners != []
    ensures var r := Route(d, winners, registry);
      && (|r.containers| == |winners| <==> d.world.ledger.available >= |winners|)
      && DeskInv(r.containers, r.world, r.nextId)
      && (d.world.ledger.available >= |winners| ==>
            Routed(d, r, winners, |winners|, registry) && r.world.ledger.available == 0)
  {
    hide DeskInv; hide RouteFirst; hide DistinctPairs;
    var pool, n := d.world.ledger.available, |winners|;
    if pool >= n {
      RouteStep(d, winners, n, registry);
      SharesAddUp(pool, n);
    } else {
      PoorRoute(d, winners, n, registry);
    }
  }

  class DefaultRouter {
    constructor () {}

    /** Split the available capital over the winners, the remainder going to the first. */
    method Start(m: ContainerManager, winners: seq<Winner>)
      requires m.Valid()
      modifies m, m.risk, m.ledger
      ensures m.Valid() && m.ToDesk() == Route(old(m.ToDesk()), winners, m.registry)
      ensures forall c :: c in m.containers ==> c in old(m.containers) || fresh(c)
    {
      hide Manager.Create; hide CreateError;
      if winners == [] { return; }
      var n := |winners|;
      var pool := m.ledger.available;
      var base := TDiv(pool, n);
      var rem := pool - base * n;
      var k := 0;
      while k < n
        invariant k <= n && m.Valid()
        invariant forall c :: c in m.containers ==> c in old(m.containers) || fresh(c)
        invariant rem == if k == 0 then pool - base * n else 0
        invariant m.ToDesk() == RouteFirst(old(m.ToDesk()), winners, k, m.registry)
      {
        var allocation := base + rem;
        rem := 0;
        var id := m.CreateContainer(RequestOf(winners[k], allocation));
        k := k + 1;
      }
    }
  }

  // ---------------------------------------------------------------- order sizes

  /** Two rounded per-million fees and the fixed charges of a buy. */
  lemma BuyFeesBound(price: int, qty: int)
    requires price * qty >= 0
    ensures 1_000_000 * BuyFees(DEFAULT_RATES, price, qty) <= 31 * (price * qty) + 2361 * 1_000_000
  {
    var m := price * qty;
    assert DEFAULT_RATES.brokerage + Gst(DEFAULT_RATES) == 2360;
  }

  lemma SizedNotional(allocation: int, price: int)
    requires allocation >= 0 && 100 <= price <= allocation * 5 * 95 / 100
    ensures var q := PositionForCapital(allocation, price, 5);
      && q >= 1 && 4 * (price * q) <= 19 * allocation && 400 * ((price + 1) * q) <= 1919 * allocation
      && 4 * (price * (q + 1)) > 19 * allocation
  {
    var buying := allocation * 5 * 95 / 100;
    SharesBought(buying, price);
    assert price * (buying / price + 1) == price * (buying / price) + price;
    NotionalBounds(allocation, buying, price, buying / price);
  }

  lemma SharesBought(buying: int, price: int)
    requires 0 < price <= buying
    ensures buying / price >= 1 && price * (buying / price) <= buying < price * (buying / price) + price
  {
    var q := buying / price;
    assert buying == q * price + buying % price;
    if q <= 0 { ProductNotPositive(q, price); }
  }

  lemma ProductNotPositive(q: int, price: int)
    requires q <= 0 < price
    ensures q * price <= 0
  {}

  lemma NotionalBounds(allocation: int, buying: int, price: int, q: int)
    requires allocation >= 0 && q >= 1 && price >= 100 && price * q <= buying && 100 * buying <= 475 * allocation
    ensures 4 * (price * q) <= 19 * allocation && 400 * ((price + 1) * q) <= 1919 * allocation
  {
    assert (price - 100) * q >= 0;
    assert (price + 1) * q == price * q + q;
  }

  /** With Rs 600 or more, and a price between Re 1 and the buying power, the sized order, the largest
      within 95% of five times the allocation, passes the capital rule at the last price, and the venue
      still fills it one paisa above. */
  lemma SizedOrderPasses(allocation: int, price: int, symbol: SymbolId, strategyId: StrategyId, position: int)
    requires allocation >= 60_000 && 100 <= price <= allocation * 5 * 95 / 100
    ensures var q := PositionForCapital(allocation, price, 5);
      && 4 * (price * q) <= 19 * allocation < 4 * (price * (q + 1))
      && (forall ctx: Context :: ctx.cash == allocation ==>
        CapitalRule(DEFAULT_LIMITS, ctx, Intent(strategyId, symbol, Buy, q, price)).None?)
      && Accepts(DEFAULT_VENUE, Buy, q, price, Mis, allocation, position)
  {
    hide PositionForCapital; hide BuyFees; hide TDiv;
    var q := PositionForCapital(allocation, price, 5);
    SizedNotional(allocation, price);
    assert price * q >= 0 && (price + 1) * q >= 0;
    BuyFeesBound(price, q);
    BuyFeesBound(price + 1, q);
    FifthOf(price * q);
    FifthOf((price + 1) * q);
  }

  lemma FifthOf(x: int)
    requires x >= 0
    ensures 5 * TDiv(x, 5) <= x
  {}

  /** A share dearer than the whole leveraged allocation is still ordered, one at a time, and always
      refused. */
  lemma TooDearFails(allocation: int, price: int, ctx: Context, symbol: SymbolId, strategyId: StrategyId)
    requires 0 < allocation && price > 5 * allocation + 4 && ctx.cash == allocation
    ensures PositionForCapital(allocation, price, 5) == 1
    ensures CapitalRule(DEFAULT_LIMITS, ctx, Intent(strategyId, symbol, Buy, 1, price)).Some?
  {
    var buying := allocation * 5 * 95 / 100;
    assert 0 <= buying < price;
    assert buying / price == 0;
    FeesNotNegative(price);
    hide BuyFees;
    assert TDiv(price * 1, 5) == price / 5 > allocation;
  }

  lemma FeesNotNegative(price: int)
    requires price > 0
    ensures BuyFees(DEFAULT_RATES, price, 1) >= 0
  {
    assert price * 1 == price;
  }
}
