/** The risk engine: an ordered rule chain and a two-way index of active containers. */
module Risk {
  import opened Domain
  import opened Orders
  import opened Exchange

  datatype Limits = Limits(maxPosition: int, dailyLoss: int, leverage: int)

  const DEFAULT_LIMITS := Limits(1_000_000, 10_00_000_00, 5)

  /** One container per (workbook, symbol, strategy). */
  datatype Key = Key(workbook: nat, symbol: SymbolId, strategy: StrategyId)

  datatype RiskState = RiskState(
    limits: Limits, killSwitch: bool, misSquareoff: bool,
    byKey: map<Key, ContainerId>, byId: map<ContainerId, Key>)

  function Fresh(limits: Limits): RiskState { RiskState(limits, false, false, map[], map[]) }

  /** What the rules may look at. */
  datatype Context = Context(mode: TradingMode, cash: int, position: int, dailyPnl: int, now: Timestamp)

  function CapitalRule(l: Limits, ctx: Context, i: Intent): Option<string> {
    if i.side != Buy then None
    else if i.price <= 0 then Some("ContainerCapital")
    else
      var leverage := if l.leverage > 0 then l.leverage else 1;
      var required := TDiv(i.price * i.qty, leverage);
      if ctx.cash < required + BuyFees(DEFAULT_RATES, i.price, i.qty) then Some("ContainerCapital") else None
  }

  /** The first rule that rejects the order, in the engine's order. */
  function Rejection(r: RiskState, ctx: Context, i: Intent): Option<string> {
    if r.killSwitch then Some("KillSwitch")
    else if r.misSquareoff && ctx.mode == Mis then Some("MISSquareOff")
    else if !RegularHours(ctx.now) then Some("MarketHours")
    else if ctx.dailyPnl <= -r.limits.dailyLoss then Some("DailyLossLimit")
    else if i.side == Buy && ctx.position + i.qty > r.limits.maxPosition then Some("MaxPositionSize")
    else CapitalRule(r.limits, ctx, i)
  }

  /** Under the default limits: a Rs 10 lakh loss limit, a million shares, fivefold leverage, and fees of
      Rs 23.60 plus 30 and 1 millionths of the notional. */
  lemma ApprovedIff(r: RiskState, ctx: Context, i: Intent)
    requires r.limits == DEFAULT_LIMITS
    ensures Rejection(r, ctx, i).None? <==>
      && !r.killSwitch && !(r.misSquareoff && ctx.mode == Mis)
      && 555 <= (ctx.now / 60_000_000_000 + 330) % 1440 < 930
      && ctx.dailyPnl > -100_000_000
      && (i.side == Buy ==>
            var notional := i.price * i.qty;
            && ctx.position + i.qty <= 1_000_000 && i.price > 0
            && ctx.cash >= TDiv(notional, 5) + 2360 + (if notional <= 0 then 0 else
                 (30 * notional + 500_000) / 1_000_000 + (notional + 500_000) / 1_000_000))
  {
    IstClock(ctx.now);
    assert Gst(DEFAULT_RATES) == 360;
    hide TDiv;
  }

  function OnEvent(r: RiskState, e: SystemEvent): RiskState {
    match e
    case KillSwitch => r.(killSwitch := true)
    case MisSquareoffWarning => r.(misSquareoff := true)
    case SessionStart => r.(misSquareoff := false)
    case SessionEnd => r
  }

  predicate Occupied(r: RiskState, k: Key, self: ContainerId) {
    k in r.byKey && r.byKey[k] != self
  }

  function Register(r: RiskState, k: Key, id: ContainerId): RiskState {
    r.(byKey := r.byKey[k := id], byId := r.byId[id := k])
  }

  function Unregister(r: RiskState, id: ContainerId): RiskState {
    if id !in r.byId then r
    else r.(byKey := r.byKey - {r.byId[id]}, byId := r.byId - {id})
  }

  /** The two maps are inverse to each other. */
  ghost predicate IndexOk(r: RiskState) {
    && (forall k :: k in r.byKey ==> r.byKey[k] in r.byId && r.byId[r.byKey[k]] == k)
    && (forall id :: id in r.byId ==> r.byId[id] in r.byKey && r.byKey[r.byId[id]] == id)
  }

  /** Registering a new container under a free key, and unregistering any, keep the index two-way. */
  lemma IndexKept(r: RiskState, k: Key, id: ContainerId)
    requires IndexOk(r)
    ensures id !in r.byId && k !in r.byKey ==> IndexOk(Register(r, k, id)) && Unregister(Register(r, k, id), id) == r
    ensures IndexOk(Unregister(r, id))
  {
    if id !in r.byId && k !in r.byKey {
      var s := Register(r, k, id);
      assert s.byKey - {k} == r.byKey && s.byId - {id} == r.byId;
    }
  }

  class RiskEngine {
    const limits: Limits
    var killSwitch: bool
    var misSquareoff: bool
    var byKey: map<Key, ContainerId>
    var byId: map<ContainerId, Key>

    constructor (limits: Limits)
      ensures State() == Fresh(limits)
    {
      this.limits := limits;
      killSwitch, misSquareoff, byKey, byId := false, false, map[], map[];
    }

    function State(): RiskState
      reads this
    {
      RiskState(limits, killSwitch, misSquareoff, byKey, byId)
    }

    method SetKillSwitch(armed: bool)
      modifies this
      ensures State() == old(State()).(killSwitch := armed)
    {
      killSwitch := armed;
    }

    method OnSystemEvent(e: SystemEvent)
      modifies this
      ensures State() == OnEvent(old(State()), e)
    {
      match e {
        case KillSwitch => killSwitch := true;
        case MisSquareoffWarning => misSquareoff := true;
        case SessionStart => misSquareoff := false;
        case SessionEnd =>
      }
    }

    method RegisterContainer(k: Key, id: ContainerId) returns (r: OpResult)
      modifies this
      ensures r == if Occupied(old(State()), k, id) then Failed("duplicate symbol+strategy in workbook") else Done
      ensures State() == if r == Done then Register(old(State()), k, id) else old(State())
    {
      if k in byKey && byKey[k] != id { return Failed("duplicate symbol+strategy in workbook"); }
      byKey := byKey[k := id];
      byId := byId[id := k];
      r := Done;
    }

    method UnregisterContainer(id: ContainerId)
      modifies this
      ensures State() == Unregister(old(State()), id)
    {
      if id !in byId { return; }
      byKey := byKey - {byId[id]};
      byId := byId - {id};
    }

    /** Run the rule chain; the first rule that rejects is reported. */
    method Check(i: Intent, ctx: Context) returns (rule: Option<string>)
      ensures rule == Rejection(State(), ctx, i)
      ensures rule.None? <==>
        && !killSwitch && !(misSquareoff && ctx.mode == Mis)
        && 555 <= IstMinuteOfDay(ctx.now) < 930
        && ctx.dailyPnl > -limits.dailyLoss
        && (i.side == Buy ==>
              && ctx.position + i.qty <= limits.maxPosition && i.price > 0
              && ctx.cash >= TDiv(i.price * i.qty, if limits.leverage > 0 then limits.leverage else 1)
                   + BuyFees(DEFAULT_RATES, i.price, i.qty))
      ensures rule == Some("KillSwitch") <==> killSwitch
      ensures rule == Some("MISSquareOff") <==> !killSwitch && misSquareoff && ctx.mode == Mis
      ensures rule == Some("MarketHours") <==>
        !killSwitch && !(misSquareoff && ctx.mode == Mis) && !(555 <= IstMinuteOfDay(ctx.now) < 930)
      ensures rule == Some("DailyLossLimit") <==>
        && !killSwitch && !(misSquareoff && ctx.mode == Mis) && 555 <= IstMinuteOfDay(ctx.now) < 930
        && ctx.dailyPnl <= -limits.dailyLoss
      ensures rule == Some("MaxPositionSize") <==>
        && !killSwitch && !(misSquareoff && ctx.mode == Mis) && 555 <= IstMinuteOfDay(ctx.now) < 930
        && ctx.dailyPnl > -limits.dailyLoss && i.side == Buy && ctx.position + i.qty > limits.maxPosition
    {
      if killSwitch { return Some("KillSwitch"); }
      if misSquareoff && ctx.mode == Mis { return Some("MISSquareOff"); }
      if !RegularHours(ctx.now) { return Some("MarketHours"); }
      if ctx.dailyPnl <= -limits.dailyLoss { return Some("DailyLossLimit"); }
      if i.side == Buy && ctx.position + i.qty > limits.maxPosition { return Some("MaxPositionSize"); }
      if i.side == Buy {
        if i.price <= 0 { return Some("ContainerCapital"); }
        var leverage := if limits.leverage > 0 then limits.leverage else 1;
        var required := TDiv(i.price * i.qty, leverage);
        if ctx.cash < required + BuyFees(DEFAULT_RATES, i.price, i.qty) { return Some("ContainerCapital"); }
      }
      rule := None;
    }
  }
}
