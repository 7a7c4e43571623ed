/** What the fills of a run say by themselves: every fill is dealt at the venue's terms on a bar of the
    tape and within the risk limits, and the fills alone determine every holding. */
module Audit {
  import opened Domain
  import opened Orders
  import opened Exchange
  import opened Holdings
  import opened Ledger
  import opened Risk
  import opened Scheduler
  import opened Container
  import opened Manager
  import opened Router
  import opened RunProtocol

  // ---------------------------------------------------------------- the terms of one fill

  predicate DealtAt(f: Fill, bar: BarEvent) {
    && f.symbol == bar.symbol && f.ts == bar.candle.ts
    && Charged(f.side, f.qty, f.price, f.fees, bar.candle.close)
  }

  /** The fill is one that a container with holding h may have had: a purchase in regular hours, before a
      loss of Rs 10 lakh, up to a million shares and paid for; a sale of shares it has. A fifth of the
      notional is blocked as margin and released at the entry price. */
  predicate Lawful(f: Fill, h: Holding) {
    if f.side == Buy then
      && 555 <= IstMinuteOfDay(f.ts) < 930
      && h.realized > -100_000_000
      && h.position + f.qty <= 1_000_000
      && f.cashImpact == -(TDiv(f.price * f.qty, 5) + f.fees)
      && h.cash + f.cashImpact >= 0
    else
      var entry := if h.avg > 0 then h.avg else f.price;
      && f.qty <= h.position
      && f.cashImpact == TDiv(entry * f.qty, 5) + (f.price * f.qty - entry * f.qty) - f.fees
  }

  /** The holding that a container's own fills leave of its starting cash. */
  function Replayed(cash: int, fills: seq<Fill>, id: ContainerId): Holding {
    if fills == [] then Holding(cash, 0, 0, 0)
    else
      var h, f := Replayed(cash, fills[..|fills| - 1], id), fills[|fills| - 1];
      if f.container == id && f.qty > 0 then ApplyFill(h, f) else h
  }

  /** The container's holding is what its fills say, and each of them was lawful when it was dealt. */
  ghost predicate Audited(c: State, fills: seq<Fill>) {
    && c.held == Replayed(c.Allocation(), fills, c.config.id)
    && (forall k :: 0 <= k < |fills| && fills[k].container == c.config.id ==>
          Entitled(c, fills, k))
  }

  ghost predicate Entitled(c: State, fills: seq<Fill>, k: nat)
    requires k < |fills|
  {
    && fills[k].symbol == c.config.symbol
    && Lawful(fills[k], Replayed(c.Allocation(), fills[..k], c.config.id))
  }

  // ---------------------------------------------------------------- what one container adds

  /** Positions per symbol as the ledger books the fills. */
  function Booked(fills: seq<Fill>): map<SymbolId, Position> {
    if fills == [] then map[]
    else
      var m, f := Booked(fills[..|fills| - 1]), fills[|fills| - 1];
      if f.qty <= 0 then m
      else m[f.symbol := AfterFill(if f.symbol in m then m[f.symbol] else Position(0, 0, 0), f)]
  }

  ghost predicate Standard(w: World) {
    && w.venue == DEFAULT_VENUE && w.risk.limits == DEFAULT_LIMITS
    && w.ledger.positions == Booked(w.ledger.fills)
  }

  lemma FillIsBooked(l: LedgerState, f: Fill)
    requires f.qty > 0 && l.positions == Booked(l.fills)
    ensures var l1 := LedgerFill(l, f); l1.positions == Booked(l1.fills)
  {
    hide AfterFill;
    assert (l.fills + [f])[..|l.fills|] == l.fills;
  }

  lemma SubmittedIsBooked(c: State, w: World, i: Intent, bar: BarEvent)
    requires Standard(w)
    ensures Standard(Submitted(c, w, i, bar).1)
  {
    if Submitted(c, w, i, bar).2 {
      AcceptedQty(c, w, i, bar);
      hide Accepts; hide ApplyFill; hide AfterFill; hide Booked;
      FillIsBooked(w.ledger, Execution(w.venue, w.nextOrder, i, bar, c.config.tradingMode, c.held.avg).(
        container := c.config.id));
    }
  }

  /** Between two moments the container only added fills of its own, dealt at the bar. */
  ghost predicate Added(c: State, w: World, c': State, w': World, bar: Option<BarEvent>, sales: bool) {
    && c'.config == c.config && c'.mode == c.mode && Standard(w')
    && Audited(c', w'.ledger.fills)
    && w.ledger.fills <= w'.ledger.fills
    && (forall k :: |w.ledger.fills| <= k < |w'.ledger.fills| ==> OwnFill(c, w'.ledger.fills[k], bar, sales))
  }

  ghost predicate OwnFill(c: State, f: Fill, bar: Option<BarEvent>, sales: bool) {
    f.container == c.config.id && bar.Some? && DealtAt(f, bar.value) && (sales ==> f.side == Sell)
  }

  lemma AddedTwice(c: State, w: World, c1: State, w1: World, c2: State, w2: World, bar: Option<BarEvent>, sales: bool)
    requires Added(c, w, c1, w1, bar, sales) && Added(c1, w1, c2, w2, bar, sales)
    ensures Added(c, w, c2, w2, bar, sales)
  {
    hide DealtAt; hide Audited; hide Standard;
    assert w.ledger.fills <= w2.ledger.fills;
    forall k | |w.ledger.fills| <= k < |w2.ledger.fills| ensures OwnFill(c, w2.ledger.fills[k], bar, sales) {
      if k < |w1.ledger.fills| { assert w2.ledger.fills[k] == w1.ledger.fills[k]; }
    }
  }

  lemma NothingAdded(c: State, w: World, c': State, w': World, bar: Option<BarEvent>, sales: bool)
    requires Audited(c, w.ledger.fills) && Standard(w') && w'.ledger.fills == w.ledger.fills
    requires c'.config == c.config && c'.mode == c.mode && c'.held == c.held
    ensures Added(c, w, c', w', bar, sales)
  {
    hide Lawful;
    forall k | 0 <= k < |w.ledger.fills| && w.ledger.fills[k].container == c.config.id
      ensures Entitled(c', w.ledger.fills, k)
    {
      assert Entitled(c, w.ledger.fills, k);
    }
  }

  /** One more fill of the container itself. */
  lemma AuditedMore(c: State, c': State, fills: seq<Fill>, f: Fill)
    requires Audited(c, fills) && f.container == c.config.id && f.symbol == c.config.symbol && f.qty > 0
    requires Lawful(f, c.held) && c'.config == c.config && c'.mode == c.mode && c'.held == ApplyFill(c.held, f)
    ensures Audited(c', fills + [f])
  {
    hide Lawful; hide ApplyFill;
    var all := fills + [f];
    assert all[..|fills|] == fills;
    forall k | 0 <= k < |all| && all[k].container == c.config.id ensures Entitled(c', all, k) {
      if k < |fills| {
        assert all[..k] == fills[..k] && Entitled(c, fills, k);
      }
    }
  }

  /** Fills of other containers do not touch this one. */
  lemma {:induction false} OthersReplay(cash: int, fills: seq<Fill>, all: seq<Fill>, id: ContainerId)
    requires fills <= all && forall k :: |fills| <= k < |all| ==> all[k].container != id
    ensures Replayed(cash, all, id) == Replayed(cash, fills, id)
    decreases |all|
  {
    if |fills| < |all| {
      OthersReplay(cash, fills, all[..|all| - 1], id);
    } else {
      assert all == fills;
    }
  }

  lemma OthersAudited(o: State, fills: seq<Fill>, all: seq<Fill>)
    requires Audited(o, fills) && fills <= all
    requires forall k :: |fills| <= k < |all| ==> all[k].container != o.config.id
    ensures Audited(o, all)
  {
    hide Lawful; hide Replayed;
    OthersReplay(o.Allocation(), fills, all, o.config.id);
    forall k | 0 <= k < |all| && all[k].container == o.config.id ensures Entitled(o, all, k) {
      assert all[..k] == fills[..k] && Entitled(o, fills, k);
    }
  }

  // ---------------------------------------------------------------- orders and forced sales

  /** What the venue fills of an approved order is lawful and dealt at the bar. */
  lemma FilledIsLawful(c: State, w: World, i: Intent, bar: BarEvent)
    requires Standard(w) && c.config.tradingMode == Mis && i.symbol == bar.symbol && c.lastBar == Some(bar)
    requires i.side == Buy ==> Rejection(w.risk, ContextOf(c), i).None?
    requires Accepts(w.venue, i.side, i.qty, bar.candle.close, Mis, c.held.cash, c.held.position)
    ensures var f := Execution(w.venue, w.nextOrder, i, bar, Mis, c.held.avg).(container := c.config.id);
      Lawful(f, c.held) && DealtAt(f, bar) && f.qty > 0 && f.side == i.side && f.symbol == i.symbol
  {
    ApprovedIff(w.risk, ContextOf(c), i);
    IstClock(bar.candle.ts);
    ExecutionTerms(w.nextOrder, i, bar, Mis, c.held.avg);
    hide Rejection; hide Charged; hide IstMinuteOfDay; hide Fees; hide TDiv; hide Booked;
  }

  /** An order that the rule chain approved, put to the venue at a bar. */
  lemma SubmittedAdds(c: State, w: World, i: Intent, bar: BarEvent)
    requires Standard(w) && Audited(c, w.ledger.fills) && c.config.tradingMode == Mis
    requires i.symbol == c.config.symbol == bar.symbol && c.lastBar == Some(bar)
    requires i.side == Buy ==> Rejection(w.risk, ContextOf(c), i).None?
    ensures var r := Submitted(c, w, i, bar); Added(c, w, r.0, r.1, Some(bar), i.side == Sell)
  {
    hide Rejection; hide Lawful; hide DealtAt; hide ApplyFill; hide Execution; hide Accepts; hide AfterFill;
    hide Audited; hide Standard; hide ContextOf;
    SubmittedIsBooked(c, w, i, bar);
    var (c1, w1, filled) := Submitted(c, w, i, bar);
    if filled {
      FilledIsLawful(c, w, i, bar);
      AuditedMore(c, c1, w.ledger.fills,
                  Execution(w.venue, w.nextOrder, i, bar, Mis, c.held.avg).(container := c.config.id));
    } else {
      NothingAdded(c, w, c1, w1, Some(bar), i.side == Sell);
    }
  }

  lemma SoldOutAdds(c: State, w: World, c': State, w': World)
    requires Standard(w) && Standard(w') && Audited(c, w.ledger.fills) && c.config.tradingMode == Mis
    requires c.lastBar.Some? && c.lastBar.value.symbol == c.config.symbol && SoldOut(c, w, c', w')
    ensures Added(c, w, c', w', c.lastBar, true)
  {
    if c.held.position == 0 {
      NothingAdded(c, w, c', w', c.lastBar, true);
    } else {
      var f := w'.ledger.fills[|w.ledger.fills|];
      assert Gst(DEFAULT_RATES) == 360;
      assert DealtAt(f, c.lastBar.value) && Lawful(f, c.held) by { hide TDiv; }
      hide Lawful; hide DealtAt;
      AuditedMore(c, c', w.ledger.fills, f);
    }
  }

  lemma {:induction false} IntentsAdd(c: State, w: World, bar: BarEvent, intents: seq<Intent>)
    requires Standard(w) && Audited(c, w.ledger.fills) && c.config.tradingMode == Mis
    requires c.status == Active && c.config.symbol == bar.symbol && c.lastBar == Some(bar)
    ensures var r := RunIntents(c, w, bar, intents);
      && Added(c, w, r.0, r.1, Some(bar), w.risk.misSquareoff)
      && r.0.lastBar == c.lastBar && (r.0.status == Active || r.0.status == Stopped)
      && r.1.risk.misSquareoff == w.risk.misSquareoff
    decreases |intents|
  {
    hide Submitted; hide Exit; hide Rejection; hide Added; hide Audited; hide Standard; hide SoldOut;
    if intents == [] {
      NothingAdded(c, w, c, w, Some(bar), w.risk.misSquareoff);
    } else {
      var i := Normalised(c, intents[0], bar);
      var no := Rejection(w.risk, ContextOf(c), i);
      if no.Some? {
        var c1 := c.(rejections := c.rejections + [RejectionRecord(bar.candle.ts, no.value)]);
        NothingAdded(c, w, c1, w, Some(bar), w.risk.misSquareoff);
        AddedKeeps(c, w, c1, w, Some(bar), w.risk.misSquareoff);
        IntentsAdd(c1, w, bar, intents[1..]);
        var r := RunIntents(c1, w, bar, intents[1..]);
        AddedTwice(c, w, c1, w, r.0, r.1, Some(bar), w.risk.misSquareoff);
      } else {
        WindowRejects(w.risk, ContextOf(c), i);
        SubmittedAdds(c, w, i, bar);
        SubmittedFrame(c, w, i, bar);
        var (c1, w1, filled) := Submitted(c, w, i, bar);
        AddedWeaker(c, w, c1, w1, Some(bar), i.side == Sell, w.risk.misSquareoff);
        AddedKeeps(c, w, c1, w1, Some(bar), w.risk.misSquareoff);
        if filled && c1.config.strategy.wantsExit(c1.seen) {
          ExitAdds(c1, w1);
          ExitFrame(c1, w1);
          var r := Exit(c1, w1);
          AddedWeaker(c1, w1, r.0, r.1, Some(bar), true, w.risk.misSquareoff);
          AddedTwice(c, w, c1, w1, r.0, r.1, Some(bar), w.risk.misSquareoff);
        } else {
          IntentsAdd(c1, w1, bar, intents[1..]);
          var r := RunIntents(c1, w1, bar, intents[1..]);
          AddedTwice(c, w, c1, w1, r.0, r.1, Some(bar), w.risk.misSquareoff);
        }
      }
    }
  }

  lemma AddedKeeps(c: State, w: World, c': State, w': World, bar: Option<BarEvent>, sales: bool)
    requires Added(c, w, c', w', bar, sales)
    ensures Standard(w') && Audited(c', w'.ledger.fills) && c'.config == c.config && c'.mode == c.mode
  {}

  lemma AddedWeaker(c: State, w: World, c': State, w': World, bar: Option<BarEvent>, sales: bool, weaker: bool)
    requires Added(c, w, c', w', bar, sales) && (weaker ==> sales)
    ensures Added(c, w, c', w', bar, weaker)
  {
    hide DealtAt; hide Audited; hide Standard;
  }

  lemma SubmittedFrame(c: State, w: World, i: Intent, bar: BarEvent)
    ensures var r := Submitted(c, w, i, bar);
      r.0.status == c.status && r.0.lastBar == c.lastBar && r.0.config == c.config && r.1.risk == w.risk
      && r.0.registered == c.registered && r.0.mode == c.mode
  {
    hide Accepts; hide Execution; hide ApplyFill; hide LedgerFill;
  }

  lemma FlattenFrame(c: State, w: World, price: int)
    ensures var r := Flatten(c, w, price);
      && r.0.lastBar == c.lastBar && r.0.config == c.config && r.0.mode == c.mode && r.0.status == c.status
      && r.0.registered == c.registered && r.1.risk == w.risk && (Standard(w) ==> Standard(r.1))
  {
    hide Submitted;
    if c.held.position > 0 && c.lastBar.Some? {
      var bar := c.lastBar.value.(candle := c.lastBar.value.candle.(close := price));
      var i := Intent(c.config.strategyId, c.config.symbol, Sell, c.held.position, price);
      SubmittedFrame(c, w, i, bar);
      if Standard(w) { SubmittedIsBooked(c, w, i, bar); }
    }
  }

  lemma StopFrame(c: State, w: World)
    ensures var r := Stop(c, w);
      && r.0.lastBar == c.lastBar && r.0.config == c.config && r.0.mode == c.mode && r.0.status == Stopped
      && r.0.held == c.held && r.1.ledger.fills == w.ledger.fills && (Standard(w) ==> Standard(r.1))
      && r.1.risk.misSquareoff == w.risk.misSquareoff
  {}

  /** Leaving keeps the venue, the limits and the last bar. */
  lemma ExitFrame(c: State, w: World)
    ensures var r := Exit(c, w);
      && r.0.lastBar == c.lastBar && r.0.config == c.config && r.0.mode == c.mode && (Standard(w) ==> Standard(r.1))
      && r.1.risk.misSquareoff == w.risk.misSquareoff
      && (c.lastBar.None? ==> r.1.ledger.fills == w.ledger.fills && r.0.held == c.held)
  {
    var exiting := c.(status := Exiting);
    if c.lastBar.Some? {
      var p := c.lastBar.value.candle.close;
      FlattenFrame(exiting, w, p);
      StopFrame(Flatten(exiting, w, p).0, Flatten(exiting, w, p).1);
    } else {
      StopFrame(exiting, w);
    }
    hide Flatten; hide Stop; hide Standard;
  }

  lemma ExitAdds(c: State, w: World)
    requires Standard(w) && Audited(c, w.ledger.fills) && c.config.tradingMode == Mis && c.status != Stopped
    requires c.lastBar.Some? ==> c.lastBar.value.symbol == c.config.symbol
    ensures var r := Exit(c, w);
      Added(c, w, r.0, r.1, c.lastBar, true) && r.0.lastBar == c.lastBar && r.0.status == Stopped
  {
    hide Exit; hide SoldOut; hide Standard; hide Audited; hide Added;
    ExitFrame(c, w);
    var r := Exit(c, w);
    if c.lastBar.Some? {
      ForcedSales(c, w);
      SoldOutAdds(c, w, r.0, r.1);
    } else {
      NothingAdded(c, w, r.0, r.1, c.lastBar, true);
    }
    ExitStops(c, w);
  }

  // ---------------------------------------------------------------- one step of one container

  /** The bar at whose close a step can make a container trade. */
  function Quote(op: Manager.Step, c: State): Option<BarEvent> {
    if c.status == Stopped then None
    else match op
      case BarStep(bar) => if bar.symbol == c.config.symbol then Some(bar) else None
      case EventStep(e) => if Sells(e, Mis) then c.lastBar else None
      case ExitStep => c.lastBar
  }

  /** What a run keeps true of a container, at whose last bar it would be closed. */
  ghost predicate InOrder(c: State, w: World) {
    && Audited(c, w.ledger.fills) && c.config.tradingMode == Mis
    && (c.status == Active || c.status == Stopped)
    && (c.lastBar.Some? ==> c.lastBar.value.symbol == c.config.symbol)
  }

  /** The last bar follows the bars of the container's symbol while the container runs. */
  ghost predicate Quoted(op: Manager.Step, c: State, c': State) {
    c'.status == Active ==>
      c.status == Active && c'.lastBar == if op.BarStep? && Quote(op, c).Some? then Quote(op, c) else c.lastBar
  }

  lemma BarAdds(bar: BarEvent, c: State, w: World)
    requires Standard(w) && InOrder(c, w)
    ensures var r := StepOne(BarStep(bar), c, w);
      && Added(c, w, r.0, r.1, Quote(BarStep(bar), c), w.risk.misSquareoff) && InOrder(r.0, r.1)
      && Quoted(BarStep(bar), c, r.0) && r.1.risk.misSquareoff == w.risk.misSquareoff
  {
    hide RunIntents; hide Audited; hide Added; hide Standard;
    var mis := w.risk.misSquareoff;
    var r := StepOne(BarStep(bar), c, w);
    if c.status == Active && bar.symbol == c.config.symbol {
      var seen := c.seen + [SawBar(bar, c.held.position, c.held.cash)];
      var intents := c.config.strategy.decide(seen);
      var c2 := c.(lastBar := Some(bar), seen := seen,
        signals := c.signals + if intents == [] then [] else [Signal(bar.candle.ts, |intents|)]);
      NothingAdded(c, w, c2, w, Some(bar), mis);
      AddedKeeps(c, w, c2, w, Some(bar), mis);
      IntentsAdd(c2, w, bar, intents);
      AddedTwice(c, w, c2, w, r.0, r.1, Some(bar), mis);
    } else {
      NothingAdded(c, w, c, w, Quote(BarStep(bar), c), mis);
    }
    AddedKeeps(c, w, r.0, r.1, Quote(BarStep(bar), c), mis);
  }

  lemma ClosingAdds(op: Manager.Step, c: State, w: World)
    requires Standard(w) && InOrder(c, w) && !op.BarStep?
    ensures var r := StepOne(op, c, w);
      && Added(c, w, r.0, r.1, Quote(op, c), true) && InOrder(r.0, r.1) && Quoted(op, c, r.0)
  {
    hide Audited; hide Added; hide SoldOut;
    var r := StepOne(op, c, w);
    ClosingFrame(op, c, w);
    hide StepOne; hide Standard;
    if c.status == Active && c.lastBar.Some? && Quote(op, c).Some? {
      ClosingSells(op, c, w);
      SoldOutAdds(c, w, r.0, r.1);
    } else {
      NothingAdded(c, w, r.0, r.1, Quote(op, c), true);
    }
    AddedKeeps(c, w, r.0, r.1, Quote(op, c), true);
  }

  lemma ClosingSells(op: Manager.Step, c: State, w: World)
    requires c.status == Active && c.lastBar.Some? && Quote(op, c).Some? && !op.BarStep? && c.config.tradingMode == Mis
    ensures var r := StepOne(op, c, w); SoldOut(c, w, r.0, r.1)
  {
    hide SoldOut; hide Flatten; hide Exit; hide ForceExit; hide OnSystemEvent;
    ForcedSales(c, w);
  }

  lemma ClosingFrame(op: Manager.Step, c: State, w: World)
    requires !op.BarStep? && (c.status == Active || c.status == Stopped)
    ensures var r := StepOne(op, c, w);
      && r.0.lastBar == c.lastBar && r.0.config == c.config && r.0.mode == c.mode && (Standard(w) ==> Standard(r.1))
      && (r.0.status == c.status || r.0.status == Stopped)
      && (c.status == Stopped || c.lastBar.None? || (op.EventStep? && !Sells(op.event, c.config.tradingMode)) ==>
            r.1.ledger.fills == w.ledger.fills && r.0.held == c.held)
  {
    hide Submitted; hide Booked;
    var p := if c.lastBar.Some? then c.lastBar.value.candle.close else 0;
    var exiting, w1 := c.(status := Exiting), if op.EventStep? then w.(risk := OnEvent(w.risk, op.event)) else w;
    FlattenFrame(exiting, w1, p);
    FlattenFrame(c, w1, p);
    StopFrame(Flatten(exiting, w1, p).0, Flatten(exiting, w1, p).1);
    StopFrame(c, w1);
    hide Flatten; hide Stop;
  }

  // ---------------------------------------------------------------- all containers

  ghost predicate AllInOrder(cs: seq<State>, w: World) {
    && Standard(w)
    && (forall i, j :: 0 <= i < j < |cs| ==> cs[i].config.id != cs[j].config.id)
    && (forall i :: 0 <= i < |cs| ==> InOrder(cs[i], w))
  }

  ghost predicate HasId(cs: seq<State>, id: ContainerId) {
    exists i :: 0 <= i < |cs| && cs[i].config.id == id
  }

  /** The last bar of a symbol on the tape. */
  function LastOf(tape: seq<BarEvent>, s: SymbolId): Option<BarEvent> {
    if tape == [] then None
    else if tape[|tape| - 1].symbol == s then Some(tape[|tape| - 1])
    else LastOf(tape[..|tape| - 1], s)
  }

  /** A sale at the last close of its symbol. */
  predicate Forced(f: Fill, tape: seq<BarEvent>) {
    f.side == Sell && LastOf(tape, f.symbol).Some? && DealtAt(f, LastOf(tape, f.symbol).value)
  }

  /** Running containers stand at the last bar of their symbol. */
  ghost predicate UpToDate(cs: seq<State>, tape: seq<BarEvent>) {
    forall i :: 0 <= i < |cs| && cs[i].status == Active ==> cs[i].lastBar == LastOf(tape, cs[i].config.symbol)
  }

  /** A fill that a step may add, tape being the bars replayed before it. */
  ghost predicate Fitting(op: Manager.Step, tape: seq<BarEvent>, mis: bool, f: Fill) {
    if op.BarStep? then DealtAt(f, op.bar) && (mis ==> f.side == Sell)
    else Forced(f, tape) && (op.EventStep? ==> Sells(op.event, Mis))
  }

  lemma OneAdds(op: Manager.Step, c: State, w: World)
    requires Standard(w) && InOrder(c, w)
    ensures var r := StepOne(op, c, w);
      && Added(c, w, r.0, r.1, Quote(op, c), !op.BarStep? || w.risk.misSquareoff) && InOrder(r.0, r.1)
      && Quoted(op, c, r.0) && (op.BarStep? ==> r.1.risk.misSquareoff == w.risk.misSquareoff)
  {
    hide StepOne; hide Added; hide Audited; hide Standard; hide Quoted; hide InOrder;
    if op.BarStep? { BarAdds(op.bar, c, w); } else { ClosingAdds(op, c, w); }
  }

  lemma OwnFits(op: Manager.Step, c: State, w: World, tape: seq<BarEvent>, f: Fill, mis: bool)
    requires InOrder(c, w) && OwnFill(c, f, Quote(op, c), !op.BarStep? || mis)
    requires !op.BarStep? && c.status == Active ==> c.lastBar == LastOf(tape, c.config.symbol)
    ensures Fitting(op, tape, mis, f)
  {
    hide Audited; hide Charged;
  }

  lemma ReplaceInOrder(cs: seq<State>, w: World, i: nat, c: State, w1: World, bar: Option<BarEvent>, sales: bool)
    requires AllInOrder(cs, w) && i < |cs| && Added(cs[i], w, c, w1, bar, sales) && InOrder(c, w1)
    ensures AllInOrder(cs[i := c], w1)
  {
    hide Audited; hide DealtAt; hide Standard;
    var next := cs[i := c];
    forall j | 0 <= j < |cs| ensures InOrder(next[j], w1) {
      if j != i {
        forall k | |w.ledger.fills| <= k < |w1.ledger.fills|
          ensures w1.ledger.fills[k].container != cs[j].config.id
        {
          assert OwnFill(cs[i], w1.ledger.fills[k], bar, sales);
        }
        assert InOrder(cs[j], w);
        OthersAudited(cs[j], w.ledger.fills, w1.ledger.fills);
      }
    }
  }

  lemma {:induction false} SweepAdds(op: Manager.Step, cs: seq<State>, w: World, i: nat, tape: seq<BarEvent>, mis: bool)
    requires AllInOrder(cs, w) && i <= |cs|
    requires op.BarStep? ==> w.risk.misSquareoff == mis
    requires !op.BarStep? ==>
      forall j :: i <= j < |cs| && cs[j].status == Active ==> cs[j].lastBar == LastOf(tape, cs[j].config.symbol)
    ensures var r := Sweep(op, cs, w, i);
      && AllInOrder(r.0, r.1) && r.0[..i] == cs[..i]
      && (forall j :: i <= j < |cs| ==> Quoted(op, cs[j], r.0[j]) && r.0[j].config == cs[j].config)
      && w.ledger.fills <= r.1.ledger.fills
      && (forall k :: |w.ledger.fills| <= k < |r.1.ledger.fills| ==>
            Fitting(op, tape, mis, r.1.ledger.fills[k]) && HasId(cs, r.1.ledger.fills[k].container))
    decreases |cs| - i
  {
    hide StepOne; hide Audited; hide Standard; hide InOrder; hide Quoted; hide Fitting; hide HasId; hide LastOf;
    if i < |cs| {
      assert InOrder(cs[i], w);
      OneAdds(op, cs[i], w);
      var (c, w1) := StepOne(op, cs[i], w);
      var sales := !op.BarStep? || w.risk.misSquareoff;
      ReplaceInOrder(cs, w, i, c, w1, Quote(op, cs[i]), sales);
      hide AllInOrder;
      SweepAdds(op, cs[i := c], w1, i + 1, tape, mis);
      var r := Sweep(op, cs[i := c], w1, i + 1);
      assert r.0[i] == r.0[..i + 1][i] == c;
      assert r.0[..i] == r.0[..i + 1][..i] == cs[i := c][..i + 1][..i] == cs[..i];
      forall k | |w.ledger.fills| <= k < |r.1.ledger.fills|
        ensures Fitting(op, tape, mis, r.1.ledger.fills[k]) && HasId(cs, r.1.ledger.fills[k].container)
      {
        var f := r.1.ledger.fills[k];
        if k < |w1.ledger.fills| {
          assert f == w1.ledger.fills[k] && OwnFill(cs[i], f, Quote(op, cs[i]), sales);
          OwnFits(op, cs[i], w, tape, f, mis);
          OneHasId(cs, i);
        } else {
          SameIds(cs, i, c, f.container);
        }
      }
    }
  }

  lemma OneHasId(cs: seq<State>, i: nat)
    requires i < |cs|
    ensures HasId(cs, cs[i].config.id)
  {}

  lemma SameIds(cs: seq<State>, i: nat, c: State, id: ContainerId)
    requires i < |cs| && c.config.id == cs[i].config.id && HasId(cs[i := c], id)
    ensures HasId(cs, id)
  {
    var j :| 0 <= j < |cs| && cs[i := c][j].config.id == id;
    assert cs[j].config.id == id;
  }

  // ---------------------------------------------------------------- the fills of a whole run

  ghost predicate Owned(cs: seq<State>, fills: seq<Fill>) {
    forall k :: 0 <= k < |fills| ==> HasId(cs, fills[k].container)
  }

  ghost predicate SameConfigs(cs: seq<State>, cs': seq<State>) {
    |cs| == |cs'| && forall i :: 0 <= i < |cs| ==> cs'[i].config == cs[i].config
  }

  lemma OwnedKept(cs: seq<State>, cs': seq<State>, fills: seq<Fill>, fills': seq<Fill>)
    requires Owned(cs, fills) && SameConfigs(cs, cs') && fills <= fills'
    requires forall k :: |fills| <= k < |fills'| ==> HasId(cs, fills'[k].container)
    ensures Owned(cs', fills')
  {
    forall k | 0 <= k < |fills'| ensures HasId(cs', fills'[k].container) {
      if k < |fills| { assert fills'[k] == fills[k] && HasId(cs, fills[k].container); }
      var i :| 0 <= i < |cs| && cs[i].config.id == fills'[k].container;
      assert cs'[i].config.id == fills'[k].container;
    }
  }

  /** What holds of a desk on the way, tape being the bars replayed so far. */
  ghost predicate OnTheWay(d: Desk, tape: seq<BarEvent>) {
    && AllInOrder(d.containers, d.world) && UpToDate(d.containers, tape)
    && Owned(d.containers, d.world.ledger.fills)
  }

  ghost predicate Grown(d: Desk, e: Desk) {
    d.world.ledger.fills <= e.world.ledger.fills
  }

  lemma SweepedAdds(d: Desk, op: Manager.Step, tape: seq<BarEvent>)
    requires OnTheWay(d, tape)
    ensures var e := Sweeped(d, op);
      && OnTheWay(e, if op.BarStep? then tape + [op.bar] else tape) && Grown(d, e)
      && (forall k :: |d.world.ledger.fills| <= k < |e.world.ledger.fills| ==>
            Fitting(op, tape, d.world.risk.misSquareoff, e.world.ledger.fills[k]))
  {
    hide AllInOrder; hide HasId; hide Fitting; hide Owned; hide LastOf; hide Sweep;
    SweepAdds(op, d.containers, d.world, 0, tape, d.world.risk.misSquareoff);
    var e := Sweeped(d, op);
    OwnedKept(d.containers, e.containers, d.world.ledger.fills, e.world.ledger.fills);
    QuotesKept(op, d.containers, e.containers, tape);
  }

  lemma QuotesKept(op: Manager.Step, cs: seq<State>, cs': seq<State>, tape: seq<BarEvent>)
    requires UpToDate(cs, tape) && SameConfigs(cs, cs') && forall j :: 0 <= j < |cs| ==> Quoted(op, cs[j], cs'[j])
    ensures UpToDate(cs', if op.BarStep? then tape + [op.bar] else tape)
  {
    if op.BarStep? { assert (tape + [op.bar])[..|tape|] == tape; }
    forall i | 0 <= i < |cs'| && cs'[i].status == Active
      ensures cs'[i].lastBar == LastOf(if op.BarStep? then tape + [op.bar] else tape, cs'[i].config.symbol)
    {
      assert Quoted(op, cs[i], cs'[i]);
    }
  }

  /** Changing only the flags of the risk engine. */
  lemma FlagsOnTheWay(d: Desk, risk: RiskState, tape: seq<BarEvent>)
    requires OnTheWay(d, tape) && risk.limits == d.world.risk.limits
    ensures OnTheWay(d.(world := d.world.(risk := risk)), tape)
  {
    hide Audited; hide Owned; hide UpToDate;
    forall i | 0 <= i < |d.containers| ensures InOrder(d.containers[i], d.world.(risk := risk)) {
      assert InOrder(d.containers[i], d.world);
    }
  }

  /** The fills between two moments are forced sales, and there are some only if selling is due. */
  ghost predicate ForcedOnly(d: Desk, e: Desk, tape: seq<BarEvent>, due: bool) {
    && Grown(d, e) && (|d.world.ledger.fills| < |e.world.ledger.fills| ==> due)
    && forall k :: |d.world.ledger.fills| <= k < |e.world.ledger.fills| ==> Forced(e.world.ledger.fills[k], tape)
  }

  lemma DispatchAdds(d: Desk, e: SystemEvent, tape: seq<BarEvent>)
    requires OnTheWay(d, tape)
    ensures var d1 := Dispatch(d, e); OnTheWay(d1, tape) && ForcedOnly(d, d1, tape, Sells(e, Mis))
  {
    hide OnTheWay; hide Sweeped; hide DealtAt; hide LastOf;
    FlagsOnTheWay(d, OnEvent(d.world.risk, e), tape);
    var d0 := d.(world := d.world.(risk := OnEvent(d.world.risk, e)));
    SweepedAdds(d0, EventStep(e), tape);
    var d1 := Sweeped(d0, EventStep(e));
    if |d.world.ledger.fills| < |d1.world.ledger.fills| {
      assert Fitting(EventStep(e), tape, d0.world.risk.misSquareoff, d1.world.ledger.fills[|d.world.ledger.fills|]);
    }
  }

  lemma ForcedOnlyTwice(d: Desk, d1: Desk, d2: Desk, tape: seq<BarEvent>, due1: bool, due: bool)
    requires ForcedOnly(d, d1, tape, due1) && ForcedOnly(d1, d2, tape, due) && (due1 ==> due)
    ensures ForcedOnly(d, d2, tape, due)
  {
    hide DealtAt; hide LastOf;
    var fills := d2.world.ledger.fills;
    forall k | |d.world.ledger.fills| <= k < |fills| ensures Forced(fills[k], tape) {
      if k < |d1.world.ledger.fills| { assert fills[k] == d1.world.ledger.fills[k]; }
    }
  }

  lemma {:induction false} DispatchAllAdds(d: Desk, es: seq<SystemEvent>, tape: seq<BarEvent>, due: bool)
    requires OnTheWay(d, tape) && forall e :: e in es && Sells(e, Mis) ==> due
    ensures var d1 := DispatchAll(d, es); OnTheWay(d1, tape) && ForcedOnly(d, d1, tape, due)
    decreases |es|
  {
    hide OnTheWay; hide Dispatch; hide Forced; hide Sells;
    if es != [] {
      DispatchAdds(d, es[0], tape);
      var d1 := Dispatch(d, es[0]);
      assert es[0] in es;
      DispatchAllAdds(d1, es[1..], tape, due);
      ForcedOnlyTwice(d, d1, DispatchAll(d1, es[1..]), tape, Sells(es[0], Mis), due);
    }
  }

  /** Fills j to k are forced sales before the last bar, sent from 15:15 on; those from k on are dealt at
      the last bar, and none of them is a purchase from 15:15 on. */
  ghost predicate Cut(fills: seq<Fill>, j: nat, k: nat, tape: seq<BarEvent>)
    requires tape != []
  {
    var n := |tape| - 1;
    var late := IstMinuteOfDay(tape[n].candle.ts) >= 915;
    && j <= k <= |fills| && (j < k ==> late)
    && (forall i :: j <= i < k ==> Forced(fills[i], tape[..n]))
    && (forall i :: k <= i < |fills| ==> DealtAt(fills[i], tape[n]) && (late ==> fills[i].side == Sell))
  }

  /** The fills come from the tape, bar by bar: before a bar only forced sales at the closes known by
      then, with the bar only fills at its own close. */
  ghost predicate Dealt(fills: seq<Fill>, tape: seq<BarEvent>)
    decreases |tape|
  {
    if tape == [] then fills == []
    else exists j: nat, k: nat :: Cut(fills, j, k, tape) && Dealt(fills[..j], tape[..|tape| - 1])
  }

  /** From 15:15 on the bar is processed under the square-off flag. */
  lemma LateBarIsFlagged(r: Replay, ts: Timestamp)
    requires ReplayInv(r) && IstMinuteOfDay(ts) >= 915
    ensures DispatchAll(r.desk, OnBarEvents(r.sched, ts)).world.risk.misSquareoff
  {
    hide Agreed; hide AllFlat; hide DispatchAll; hide IstDay; hide IstMinuteOfDay;
    DispatchAllKeeps(r.desk, OnBarEvents(r.sched, ts));
    EventsEndInWarning(r.sched, ts);
    assert DispatchAll(r.desk, []) == r.desk by { NoneDispatched(r.desk); }
  }

  lemma NoneDispatched(d: Desk)
    ensures DispatchAll(d, []) == d
  {}

  /** The scheduler sends nothing that sells before 15:15. */
  lemma EarlyBarIsQuiet(s: SchedulerState, ts: Timestamp)
    ensures forall e :: e in OnBarEvents(s, ts) && Sells(e, Mis) ==> IstMinuteOfDay(ts) >= 915
  {}

  lemma TapeBarAdds(r: Replay, bar: BarEvent, tape: seq<BarEvent>)
    requires ReplayInv(r) && OnTheWay(r.desk, tape) && Dealt(r.desk.world.ledger.fills, tape)
    ensures var d := OnTapeBar(r, bar).desk;
      OnTheWay(d, tape + [bar]) && Dealt(d.world.ledger.fills, tape + [bar])
  {
    hide OnTheWay; hide ReplayInv; hide Forced; hide DealtAt; hide Sweeped; hide DispatchAll; hide OnBarEvents;
    hide IstMinuteOfDay; hide Dealt; hide Sells;
    var ts := bar.candle.ts;
    var es := OnBarEvents(r.sched, ts);
    EarlyBarIsQuiet(r.sched, ts);
    DispatchAllAdds(r.desk, es, tape, IstMinuteOfDay(ts) >= 915);
    var mid := DispatchAll(r.desk, es);
    SweepedAdds(mid, BarStep(bar), tape);
    if IstMinuteOfDay(ts) >= 915 { LateBarIsFlagged(r, ts); }
    BarIsCut(r.desk, mid, Sweeped(mid, BarStep(bar)), bar, tape);
  }

  lemma BarIsCut(d: Desk, mid: Desk, e: Desk, bar: BarEvent, tape: seq<BarEvent>)
    requires Dealt(d.world.ledger.fills, tape) && Grown(mid, e)
    requires ForcedOnly(d, mid, tape, IstMinuteOfDay(bar.candle.ts) >= 915)
    requires forall k :: |mid.world.ledger.fills| <= k < |e.world.ledger.fills| ==>
      Fitting(BarStep(bar), tape, mid.world.risk.misSquareoff, e.world.ledger.fills[k])
    requires IstMinuteOfDay(bar.candle.ts) >= 915 ==> mid.world.risk.misSquareoff
    ensures Dealt(e.world.ledger.fills, tape + [bar])
  {
    hide Charged; hide LastOf; hide IstMinuteOfDay;
    var fills, all := e.world.ledger.fills, tape + [bar];
    assert all[..|all| - 1] == tape;
    var j, k := |d.world.ledger.fills|, |mid.world.ledger.fills|;
    forall i | j <= i < k ensures Forced(fills[i], tape) { assert fills[i] == mid.world.ledger.fills[i]; }
    assert fills[..j] == d.world.ledger.fills;
    assert Cut(fills, j, k, all);
  }

  /** A desk on which nothing was traded yet. */
  ghost predicate Untraded(d: Desk) {
    && OnTheWay(d, []) && d.world.ledger.fills == []
  }

  /** Throughout a replay the fills come from the tape bar by bar, every one of them within the limits,
      and they determine every holding. */
  lemma {:induction false} AfterAudited(d: Desk, tape: seq<BarEvent>, n: nat)
    requires Agreed(d) && Untraded(d) && n <= |tape|
    ensures var e := After(d, tape, n).desk; OnTheWay(e, tape[..n]) && Dealt(e.world.ledger.fills, tape[..n])
  {
    hide OnTapeBar; hide Agreed; hide OnTheWay;
    if n == 0 {
      assert tape[..0] == [];
    } else {
      AfterAudited(d, tape, n - 1);
      AfterKeeps(d, tape, n - 1);
      TapeBarAdds(After(d, tape, n - 1), tape[n - 1], tape[..n - 1]);
      assert tape[..n] == tape[..n - 1] + [tape[n - 1]];
    }
  }

  // ---------------------------------------------------------------- from the router to the last sale

  lemma OpenIsUntraded(workbook: nat, borrowed: int)
    ensures Untraded(OpenDesk(workbook, borrowed))
  {}

  /** A created container has traded nothing. */
  lemma CreateUntraded(d: Desk, req: Manager.Request, registry: Registry)
    requires Agreed(d) && Untraded(d)
    ensures Untraded(Manager.Create(d, req, registry))
  {
    hide PositionForCapital; hide SharesAgree; hide MoneyAgrees; hide IndexAgrees;
    hide Occupied; hide TakeError;
    var e := Manager.Create(d, req, registry);
    forall i | 0 <= i < |e.containers|
      ensures InOrder(e.containers[i], e.world)
      ensures e.containers[i].status == Active ==> e.containers[i].lastBar == LastOf([], e.containers[i].config.symbol)
    {
      if i < |d.containers| { assert InOrder(d.containers[i], d.world); }
    }
  }

  lemma {:induction false} RouteUntraded(d: Desk, winners: seq<Winner>, k: nat, registry: Registry)
    requires Agreed(d) && Untraded(d) && d.containers == [] && k <= |winners|
    ensures Untraded(RouteFirst(d, winners, k, registry))
  {
    hide Agreed; hide Untraded; hide Manager.Create; hide Share;
    if k > 0 {
      RouteUntraded(d, winners, k - 1, registry);
      RouteFirstKeeps(d, winners, k - 1, registry);
      CreateUntraded(RouteFirst(d, winners, k - 1, registry),
                     RequestOf(winners[k - 1], Share(d.world.ledger.available, |winners|, k - 1)), registry);
    }
  }

  lemma ClosingAudited(r: Replay, cut: bool, tape: seq<BarEvent>)
    requires OnTheWay(r.desk, tape)
    ensures var d := Closing(r, cut); OnTheWay(d, tape) && ForcedOnly(r.desk, d, tape, true)
  {
    hide OnTheWay; hide Dispatch; hide Forced;
    var w := r.desk.world;
    var armed := r.desk.(world := w.(risk := w.risk.(killSwitch := true)));
    FlagsOnTheWay(r.desk, w.risk.(killSwitch := true), tape);
    DispatchAdds(armed, KillSwitch, tape);
    DispatchAdds(r.desk, SessionEnd, tape);
  }

  lemma FinalSales(d: Desk, tape: seq<BarEvent>)
    requires OnTheWay(d, tape)
    ensures var e := Sweeped(d, ExitStep); OnTheWay(e, tape) && ForcedOnly(d, e, tape, true)
  {
    hide OnTheWay; hide Sweeped; hide DealtAt; hide LastOf;
    SweepedAdds(d, ExitStep, tape);
  }

  /** The audit of a run, for any winners, strategies, tape and cut: up to some fill the list was dealt bar
      by bar along the replayed tape, the rest are sales at the last closes; every fill belongs to a
      container, was lawful when it was dealt, and the list determines all final holdings. */
  lemma RunAudited(workbook: nat, borrowed: int, winners: seq<Winner>, tape: seq<BarEvent>, maxBars: nat,
                   registry: Registry)
    ensures var d := RunTape(Route(OpenDesk(workbook, borrowed), winners, registry), tape, maxBars);
      var fills := d.world.ledger.fills;
      var played := if 0 < maxBars < |tape| then tape[..maxBars] else tape;
      && (exists k: nat :: k <= |fills| && DealtThenClosed(fills, k, played))
      && Owned(d.containers, fills)
      && (forall i :: 0 <= i < |d.containers| ==> Audited(d.containers[i], fills))
      && d.world.ledger.positions == Booked(fills)
  {
    hide Agreed; hide Untraded; hide RouteFirst; hide After; hide Closing; hide Sweeped; hide Dealt;
    var o := OpenDesk(workbook, borrowed);
    OpenDeskInv(workbook, borrowed);
    assert Agreed(o) by { AgreedIs(o); }
    OpenIsUntraded(workbook, borrowed);
    RouteUntraded(o, winners, |winners|, registry);
    RouteFirstKeeps(o, winners, |winners|, registry);
    var routed := Route(o, winners, registry);
    var n := Length(tape, maxBars);
    var played := if 0 < maxBars < |tape| then tape[..maxBars] else tape;
    assert played == tape[..n];
    AfterAudited(routed, tape, n);
    var r := After(routed, tape, n);
    ClosingAudited(r, n < |tape|, played);
    var closed := Closing(r, n < |tape|);
    FinalSales(closed, played);
    var d := Sweeped(closed, ExitStep);
    ForcedOnlyTwice(r.desk, closed, d, played, true, true);
    EndIsDealt(r.desk, d, played);
    assert forall i :: 0 <= i < |d.containers| ==> InOrder(d.containers[i], d.world);
  }

  ghost predicate DealtThenClosed(fills: seq<Fill>, k: nat, tape: seq<BarEvent>)
    requires k <= |fills|
  {
    Dealt(fills[..k], tape) && forall i :: k <= i < |fills| ==> Forced(fills[i], tape)
  }

  lemma AgreedIs(d: Desk)
    requires DeskInv(d.containers, d.world, d.nextId)
    ensures Agreed(d)
  {}

  lemma EndIsDealt(r: Desk, d: Desk, tape: seq<BarEvent>)
    requires Dealt(r.world.ledger.fills, tape) && ForcedOnly(r, d, tape, true)
    ensures var k := |r.world.ledger.fills|;
      k <= |d.world.ledger.fills| && DealtThenClosed(d.world.ledger.fills, k, tape)
  {
    hide Dealt; hide Forced;
    assert d.world.ledger.fills[..|r.world.ledger.fills|] == r.world.ledger.fills;
  }

  // ---------------------------------------------------------------- what an audited list implies

  /** At no point of the run did the container hold more than a million shares or short any. */
  lemma {:induction false} NeverOverLimit(c: State, fills: seq<Fill>, k: nat)
    requires k <= |fills|
    requires forall i :: 0 <= i < |fills| && fills[i].container == c.config.id ==> Entitled(c, fills, i)
    ensures 0 <= Replayed(c.Allocation(), fills[..k], c.config.id).position <= 1_000_000
  {
    if k > 0 {
      NeverOverLimit(c, fills, k - 1);
      assert fills[..k][..k - 1] == fills[..k - 1];
      if fills[k - 1].container == c.config.id { assert Entitled(c, fills, k - 1); }
    }
  }

  /** Container id alone trades symbol s. */
  ghost predicate SoleTrader(fills: seq<Fill>, id: ContainerId, s: SymbolId) {
    forall k :: 0 <= k < |fills| ==> (fills[k].container == id <==> fills[k].symbol == s)
  }

  /** The ledger's position of a symbol that one container alone trades is that container's: the same
      shares, average and realised profit. */
  lemma {:induction false} SoleTraderBook(cash: int, fills: seq<Fill>, id: ContainerId, s: SymbolId)
    requires SoleTrader(fills, id, s)
    ensures var h := Replayed(cash, fills, id);
      (if s in Booked(fills) then Booked(fills)[s] else Position(0, 0, 0)) == Position(h.position, h.avg, h.realized)
  {
    hide MergeAverage;
    if fills != [] { SoleTraderBook(cash, fills[..|fills| - 1], id, s); }
  }
}
