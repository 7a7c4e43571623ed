/** A momentum strategy: a few flags and counters stand for everything that happened since the last sale
    or the start of the session. */
module UpClip {
  import opened Domain
  import opened Orders

  datatype Config = Config(symbol: SymbolId, entryUp: nat, addUp: nat, takeProfit: nat, stop: nat, maxDip: nat,
    clip: int)

  const NO_ADD_AFTER := 13 * 60
  const LAST_HOUR := 14 * 60 + 30
  const STRATEGY_ID := 4

  datatype State = State(
    day: int, havePrev: bool, prevClose: int, up: nat, recover: nat,
    p0: int, minClose: int, dipped: bool, disqualified: bool)

  const CONFIGURED := State(-1, false, 0, 0, 0, 0, 0, false, false)

  function PlusBps(price: int, bps: int): int { price + TDiv(price * bps, 10000) }
  function MinusBps(price: int, bps: int): int { price - TDiv(price * bps, 10000) }

  /** Whole seconds first, then minutes of the IST day. */
  function MinuteOf(ts: Timestamp): nat { (ts / 1_000_000_000 + 19_800) % 86_400 / 60 }

  function DayOf(ts: Timestamp): nat { ts / NANOS_PER_DAY }

  /** The strategy's own minute of the day, computed from whole seconds, is the engine's. */
  lemma MinuteIsIstMinute(ts: Timestamp)
    ensures MinuteOf(ts) == IstMinuteOfDay(ts)
  {
    var x := ts + IST_OFFSET_NS;
    var s, r := x / 1_000_000_000, x % 1_000_000_000;
    var k, t := s / 86_400, s % 86_400;
    var u, v := t / 60, t % 60;
    assert x == s * 1_000_000_000 + r && s == k * 86_400 + t && t == u * 60 + v;
    assert ts / 1_000_000_000 + 19_800 == s;
    assert x == k * NANOS_PER_DAY + (t * 1_000_000_000 + r) && t * 1_000_000_000 + r < NANOS_PER_DAY;
    assert x % NANOS_PER_DAY == t * 1_000_000_000 + r;
    assert t * 1_000_000_000 + r == u * NANOS_PER_MINUTE + (v * 1_000_000_000 + r);
  }

  function ClipQty(cfg: Config, price: int): nat {
    if price <= 0 || cfg.clip <= 0 then 0 else Max(1, cfg.clip / price)
  }

  function ResetCycle(s: State): State {
    s.(up := 0, recover := 0, p0 := 0, minClose := 0, dipped := false, disqualified := false)
  }

  function ResetSession(s: State): State { ResetCycle(s).(havePrev := false, prevClose := 0) }

  function OnFill(cfg: Config, s: State, f: Fill): State {
    if f.side == Sell then ResetCycle(s)
    else
      var t := if s.p0 == 0 then s.(p0 := f.price, minClose := f.price) else s;
      t.(dipped := false, recover := 0, disqualified := 0 < t.minClose < MinusBps(t.p0, cfg.maxDip))
  }

  function Rose(s: State, close: int): bool { s.havePrev && close > s.prevClose }

  function Streaks(s: State, close: int): State {
    if !s.havePrev then s
    else if close > s.prevClose then s.(up := s.up + 1, recover := s.recover + 1)
    else s.(up := 0, recover := 0)
  }

  /** Note a close while the position is open. */
  function Noted(cfg: Config, s: State, close: int): State {
    var low := if s.minClose == 0 || close < s.minClose then close else s.minClose;
    s.(minClose := low, dipped := s.dipped || close < s.p0,
      disqualified := s.disqualified || low < MinusBps(s.p0, cfg.maxDip))
  }

  /** A close of zero is forgotten at the next bar, because zero marks an empty lowest close. */
  lemma ZeroCloseIsForgotten(cfg: Config, s: State, next: int)
    ensures s.minClose > 0 ==> Noted(cfg, s, 0).minClose == 0
    ensures Noted(cfg, Noted(cfg, s, 0), next).minClose == (if s.minClose >= 0 then next else Min(s.minClose, next))
  {
    hide MinusBps;
  }

  predicate SellDue(cfg: Config, s: State, close: int, minute: nat) {
    || (minute >= LAST_HOUR && s.havePrev && close < s.prevClose)
    || close >= PlusBps(s.p0, cfg.takeProfit)
    || close <= MinusBps(s.p0, cfg.stop)
  }

  predicate AddDue(cfg: Config, s: State, minute: nat) {
    minute < NO_ADD_AFTER && !s.disqualified && s.dipped && s.recover >= cfg.addUp
  }

  predicate EntryDue(cfg: Config, s: State, minute: nat) {
    minute < LAST_HOUR && s.havePrev && s.up >= cfg.entryUp
  }

  datatype Signal = Quiet | SellAll | Add | Enter

  /** The state when a bar is judged, and the verdict. */
  function Judged(cfg: Config, s: State, bar: BarEvent, position: nat): (State, Signal) {
    var close, minute := bar.candle.close, MinuteOf(bar.candle.ts);
    var s0 := if s.day != DayOf(bar.candle.ts) then ResetSession(s).(day := DayOf(bar.candle.ts)) else s;
    var s1 := Streaks(s0, close);
    if position > 0 && s1.p0 > 0 then
      var s2 := Noted(cfg, s1, close);
      (s2, if SellDue(cfg, s2, close, minute) then SellAll else if AddDue(cfg, s2, minute) then Add else Quiet)
    else
      (s1, if position == 0 && EntryDue(cfg, s1, minute) then Enter else Quiet)
  }

  function OnBarState(cfg: Config, s: State, bar: BarEvent, position: nat): State {
    if bar.symbol != cfg.symbol then s
    else
      var (t, signal) := Judged(cfg, s, bar, position);
      t.(havePrev := true, prevClose := bar.candle.close,
         up := if signal == Enter then 0 else t.up,
         recover := if signal == Add then 0 else t.recover,
         dipped := t.dipped && signal != Add)
  }

  function OnBarIntents(cfg: Config, s: State, bar: BarEvent, position: nat): seq<Intent> {
    if bar.symbol != cfg.symbol then []
    else match Judged(cfg, s, bar, position).1
      case Quiet => []
      case SellAll => [Intent(STRATEGY_ID, cfg.symbol, Sell, position, 0)]
      case _ => [Intent(STRATEGY_ID, cfg.symbol, Buy, ClipQty(cfg, bar.candle.close), 0)]
  }

  // ---------------------------------------------------------------- what happened

  /** One event of the strategy's life: a bar, whether a position was open, whether the close was above
      the previous close of the session, and the signal given; or a fill. */
  datatype Ev = Tick(day: nat, minute: nat, close: int, long: bool, rose: bool, signal: Signal) | Bought(price: int)
    | Sold

  datatype Input = BarIn(bar: BarEvent, position: nat) | FillIn(fill: Fill)

  /** The last bar in a trace. */
  function LastTick(trace: seq<Ev>): Option<Ev> {
    if trace == [] then None
    else if trace[|trace| - 1].Tick? then Some(trace[|trace| - 1])
    else LastTick(trace[..|trace| - 1])
  }

  /** Whether a bar closes above the last one of its session. */
  predicate Rises(trace: seq<Ev>, day: nat, close: int) {
    var last := LastTick(trace);
    last.Some? && last.value.Tick? && last.value.day == day && last.value.close < close
  }

  function Extended(cfg: Config, s: State, trace: seq<Ev>, input: Input): seq<Ev> {
    match input
    case FillIn(f) => trace + [if f.side == Buy then Bought(f.price) else Sold]
    case BarIn(bar, position) =>
      if bar.symbol != cfg.symbol then trace
      else
        var day := DayOf(bar.candle.ts);
        trace + [Tick(day, MinuteOf(bar.candle.ts), bar.candle.close, position > 0, Rises(trace, day, bar.candle.close),
                      Judged(cfg, s, bar, position).1)]
  }

  function Next(cfg: Config, s: State, input: Input): State {
    match input case FillIn(f) => OnFill(cfg, s, f) case BarIn(bar, position) => OnBarState(cfg, s, bar, position)
  }

  /** The strategy's state and everything that happened to it. */
  function Life(cfg: Config, inputs: seq<Input>): (State, seq<Ev>) {
    if inputs == [] then (CONFIGURED, [])
    else
      var n := |inputs| - 1;
      var (s, trace) := Life(cfg, inputs[..n]);
      (Next(cfg, s, inputs[n]), Extended(cfg, s, trace, inputs[n]))
  }

  /** A new session starts with a bar of another day than the last one. */
  predicate Opens(trace: seq<Ev>, e: Ev) {
    e.Tick? && (LastTick(trace).None? || (LastTick(trace).value.Tick? && LastTick(trace).value.day != e.day))
  }

  /** The events since the last sale, or since the session opened if that was later. */
  function Window(trace: seq<Ev>): seq<Ev> {
    if trace == [] then []
    else
      var n := |trace| - 1;
      var e := trace[n];
      if e.Sold? then [] else if Opens(trace[..n], e) then [e] else Window(trace[..n]) + [e]
  }

  // ---------------------------------------------------------------- flags as statements about the window

  /** The first buy of the window is event i, at this price. */
  ghost predicate FirstBuy(w: seq<Ev>, i: nat, price: int) {
    i < |w| && w[i] == Bought(price) && forall j :: 0 <= j < i ==> !w[j].Bought?
  }

  ghost predicate NoBuy(w: seq<Ev>) { forall j :: 0 <= j < |w| ==> !w[j].Bought? }

  /** Event j is a bar after event i that closed below x while the position was open. */
  predicate Below(w: seq<Ev>, i: nat, j: nat, x: int) {
    i < j < |w| && w[j].Tick? && w[j].long && w[j].close < x
  }

  /** Event j neither adds nor is a buy. */
  predicate Plain(e: Ev) { !e.Bought? && !(e.Tick? && e.signal == Add) }

  /** The last k events are rising bars without an add signal. */
  ghost predicate RoseLast(w: seq<Ev>, k: nat) {
    k <= |w| && forall j :: |w| - k <= j < |w| ==> w[j].Tick? && w[j].rose && w[j].signal != Add
  }

  function Ticks(w: seq<Ev>): seq<Ev> {
    if w == [] then [] else Ticks(w[..|w| - 1]) + if w[|w| - 1].Tick? then [w[|w| - 1]] else []
  }

  /** The last k bars rose and none of them signalled an entry. */
  ghost predicate UpLast(ticks: seq<Ev>, k: nat) {
    k <= |ticks| && forall j :: |ticks| - k <= j < |ticks| ==>
      ticks[j].Tick? && ticks[j].rose && ticks[j].signal != Enter
  }

  /** Whether some close since event i fell below x, and whether one did after the last buy or add. */
  ghost predicate EverBelow(w: seq<Ev>, i: nat, x: int) { exists j: nat :: Below(w, i, j, x) }

  ghost predicate LatelyBelow(w: seq<Ev>, i: nat, x: int) {
    exists j: nat :: Below(w, i, j, x) && forall k :: j <= k < |w| ==> Plain(w[k])
  }

  /** Event z is a bar after event i that closed at zero while the position was open. */
  predicate ZeroAt(w: seq<Ev>, i: nat, z: nat) {
    i < z < |w| && w[z].Tick? && w[z].long && w[z].close == 0
  }

  ghost predicate AnyZero(w: seq<Ev>, i: nat) { exists z: nat :: ZeroAt(w, i, z) }

  /** The last bar with the position open closed at zero. */
  ghost predicate EndsAtZero(w: seq<Ev>, i: nat) {
    exists z: nat :: ZeroAt(w, i, z) && forall j :: z < j < |w| ==> !(w[j].Tick? && w[j].long)
  }

  /** After some close of zero no close fell below x. */
  ghost predicate ZeroThenFair(w: seq<Ev>, i: nat, x: int) {
    exists z: nat :: ZeroAt(w, i, z) && FairAfter(w, i, z, x)
  }

  ghost predicate FairAfter(w: seq<Ev>, i: nat, z: nat, x: int) { forall j: nat :: z < j ==> !Below(w, i, j, x) }

  /** After some close of zero there was a buy, and no close fell below x. */
  ghost predicate Forgiven(w: seq<Ev>, i: nat, x: int) {
    exists z: nat, b: nat :: ZeroAt(w, i, z) && FairAfter(w, i, z, x) && z < b < |w| && w[b].Bought?
  }

  /** Some close fell below x and was not forgiven. */
  ghost predicate TooDeep(w: seq<Ev>, i: nat, x: int) { EverBelow(w, i, x) && !Forgiven(w, i, x) }

  /** With p0 the price of first buy i: the lowest close since the last zero, whether one fell too far
      below p0, and whether one was below p0 after the last buy or add signal. */
  ghost predicate Flags(cfg: Config, w: seq<Ev>, i: nat, s: State) {
    && s.p0 > 0 && s.minClose >= 0 && (AnyZero(w, i) || s.minClose <= s.p0)
    && !EverBelow(w, i, 0)
    && (s.minClose == 0 <==> EndsAtZero(w, i))
    && (forall x: int :: 1 <= x <= s.p0 ==> (0 < s.minClose < x <==> EverBelow(w, i, x) && !ZeroThenFair(w, i, x)))
    && (s.disqualified <==> TooDeep(w, i, MinusBps(s.p0, cfg.maxDip)))
    && (s.dipped <==> LatelyBelow(w, i, s.p0))
  }

  ghost predicate Summarises(cfg: Config, w: seq<Ev>, s: State) {
    && (s.p0 == 0 ==> NoBuy(w) && s.minClose == 0 && !s.dipped && !s.disqualified)
    && (s.p0 != 0 ==> exists i: nat :: FirstBuy(w, i, s.p0) && Flags(cfg, w, i, s))
    && (forall k: nat :: k <= s.recover <==> RoseLast(w, k))
    && (forall k: nat :: k <= s.up <==> UpLast(Ticks(w), k))
  }

  /** The previous close is the last bar's, the day is its day. */
  ghost predicate Remembers(trace: seq<Ev>, s: State) {
    var last := LastTick(trace);
    && (last.None? ==> s.day == -1 && !s.havePrev)
    && (last.Some? ==> last.value.Tick? && s.day == last.value.day && s.havePrev && s.prevClose == last.value.close)
  }

  /** Shares are bought at a positive price and no close is negative while some are held. */
  predicate Priced(i: Input) {
    match i
    case FillIn(f) => f.side == Buy ==> f.price > 0
    case BarIn(bar, position) => position > 0 ==> bar.candle.close >= 0
  }

  // ---------------------------------------------------------------- one event more

  lemma RoseMore(w: seq<Ev>, e: Ev, k: nat)
    ensures RoseLast(w + [e], 0)
    ensures RoseLast(w + [e], k + 1) <==> e.Tick? && e.rose && e.signal != Add && RoseLast(w, k)
  {
    var v := w + [e];
    assert v[|w|] == e;
    if RoseLast(v, k + 1) {
      forall j | |w| - k <= j < |w| ensures w[j].Tick? && w[j].rose && w[j].signal != Add { assert v[j] == w[j]; }
    }
  }

  lemma UpMore(t: seq<Ev>, e: Ev, k: nat)
    ensures UpLast(t + [e], 0)
    ensures UpLast(t + [e], k + 1) <==> e.Tick? && e.rose && e.signal != Enter && UpLast(t, k)
  {
    var v := t + [e];
    assert v[|t|] == e;
    if UpLast(v, k + 1) {
      forall j | |t| - k <= j < |t| ensures t[j].Tick? && t[j].rose && t[j].signal != Enter { assert v[j] == t[j]; }
    }
  }

  lemma TicksMore(w: seq<Ev>, e: Ev)
    ensures Ticks(w + [e]) == Ticks(w) + if e.Tick? then [e] else []
  {
    assert (w + [e])[..|w|] == w;
  }

  /** The two streaks count exactly: adding an event continues or breaks them. */
  lemma StreaksMore(w: seq<Ev>, e: Ev, recover: nat, up: nat)
    requires forall k: nat :: k <= recover <==> RoseLast(w, k)
    requires forall k: nat :: k <= up <==> UpLast(Ticks(w), k)
    ensures var r := if e.Tick? && e.rose && e.signal != Add then recover + 1 else 0;
      forall k: nat :: k <= r <==> RoseLast(w + [e], k)
    ensures var u := if !e.Tick? then up else if e.rose && e.signal != Enter then up + 1 else 0;
      forall k: nat :: k <= u <==> UpLast(Ticks(w + [e]), k)
  {
    hide RoseLast; hide UpLast; hide Ticks;
    TicksMore(w, e);
    var r := if e.Tick? && e.rose && e.signal != Add then recover + 1 else 0;
    forall k: nat ensures k <= r <==> RoseLast(w + [e], k) {
      if k == 0 { RoseMore(w, e, 0); } else { RoseMore(w, e, k - 1); }
    }
    if e.Tick? {
      var u := if e.rose && e.signal != Enter then up + 1 else 0;
      forall k: nat ensures k <= u <==> UpLast(Ticks(w + [e]), k) {
        if k == 0 { UpMore(Ticks(w), e, 0); } else { UpMore(Ticks(w), e, k - 1); }
      }
    } else {
      assert Ticks(w + [e]) == Ticks(w);
    }
  }

  lemma FirstBuyMore(w: seq<Ev>, e: Ev)
    ensures forall i: nat, p: int :: FirstBuy(w, i, p) ==> FirstBuy(w + [e], i, p)
    ensures NoBuy(w) && !e.Bought? ==> NoBuy(w + [e])
    ensures NoBuy(w) && e.Bought? ==> FirstBuy(w + [e], |w|, e.price)
  {}

  lemma BelowMore(w: seq<Ev>, e: Ev, i: nat, j: nat, x: int)
    ensures Below(w + [e], i, j, x) <==>
      if j == |w| then i < j && e.Tick? && e.long && e.close < x else Below(w, i, j, x)
  {
    var v := w + [e];
    if j < |w| { assert v[j] == w[j]; }
  }

  lemma EverMore(w: seq<Ev>, e: Ev, i: nat, x: int)
    requires i < |w|
    ensures EverBelow(w + [e], i, x) <==> EverBelow(w, i, x) || (e.Tick? && e.long && e.close < x)
  {
    if EverBelow(w + [e], i, x) { var j: nat :| Below(w + [e], i, j, x); BelowMore(w, e, i, j, x); }
    if EverBelow(w, i, x) { var j: nat :| Below(w, i, j, x); BelowMore(w, e, i, j, x); }
    BelowMore(w, e, i, |w|, x);
  }

  lemma LatelyMore(w: seq<Ev>, e: Ev, i: nat, x: int)
    requires i < |w|
    ensures LatelyBelow(w + [e], i, x) <==> Plain(e) && (LatelyBelow(w, i, x) || (e.Tick? && e.long && e.close < x))
  {
    var v := w + [e];
    assert v[|w|] == e;
    BelowMore(w, e, i, |w|, x);
    if LatelyBelow(v, i, x) {
      var j: nat :| Below(v, i, j, x) && forall k :: j <= k < |v| ==> Plain(v[k]);
      BelowMore(w, e, i, j, x);
      if j < |w| { forall k | j <= k < |w| ensures Plain(w[k]) { assert v[k] == w[k]; } }
    }
    if Plain(e) && LatelyBelow(w, i, x) {
      var j: nat :| Below(w, i, j, x) && forall k :: j <= k < |w| ==> Plain(w[k]);
      BelowMore(w, e, i, j, x);
    }
    if Plain(e) && e.Tick? && e.long && e.close < x { assert Below(v, i, |w|, x); }
  }

  // ---------------------------------------------------------------- one event more after a zero close

  predicate OpenBelow(e: Ev, x: int) { e.Tick? && e.long && e.close < x }

  predicate OpenZero(e: Ev) { e.Tick? && e.long && e.close == 0 }

  lemma ZeroMore(w: seq<Ev>, e: Ev, i: nat, z: nat)
    ensures ZeroAt(w + [e], i, z) <==> if z == |w| then i < z && OpenZero(e) else ZeroAt(w, i, z)
  {
    if z < |w| { assert (w + [e])[z] == w[z]; }
  }

  lemma AnyZeroMore(w: seq<Ev>, e: Ev, i: nat)
    requires i < |w|
    ensures AnyZero(w + [e], i) <==> AnyZero(w, i) || OpenZero(e)
  {
    if AnyZero(w + [e], i) { var z: nat :| ZeroAt(w + [e], i, z); ZeroMore(w, e, i, z); }
    if AnyZero(w, i) { var z: nat :| ZeroAt(w, i, z); ZeroMore(w, e, i, z); }
    ZeroMore(w, e, i, |w|);
  }

  lemma EndsMore(w: seq<Ev>, e: Ev, i: nat)
    requires i < |w|
    ensures EndsAtZero(w + [e], i) <==> if e.Tick? && e.long then e.close == 0 else EndsAtZero(w, i)
  {
    var v := w + [e];
    ZeroMore(w, e, i, |w|);
    if EndsAtZero(v, i) {
      var z: nat :| ZeroAt(v, i, z) && forall j :: z < j < |v| ==> !(v[j].Tick? && v[j].long);
      ZeroMore(w, e, i, z);
      assert z < |w| ==> v[|w|] == e;
      assert forall j :: z < j < |w| ==> v[j] == w[j];
    }
    if !(e.Tick? && e.long) && EndsAtZero(w, i) {
      var z: nat :| ZeroAt(w, i, z) && forall j :: z < j < |w| ==> !(w[j].Tick? && w[j].long);
      ZeroMore(w, e, i, z);
      assert forall j :: z < j < |v| ==> v[j] == if j < |w| then w[j] else e;
    }
  }

  lemma FairMore(w: seq<Ev>, e: Ev, i: nat, z: nat, x: int)
    requires i < |w|
    ensures z < |w| ==> (FairAfter(w + [e], i, z, x) <==> FairAfter(w, i, z, x) && !OpenBelow(e, x))
    ensures z == |w| ==> FairAfter(w + [e], i, z, x)
  {
    forall j: nat { BelowMore(w, e, i, j, x); }
    BelowMore(w, e, i, |w|, x);
    assert z < |w| && FairAfter(w + [e], i, z, x) ==> !Below(w + [e], i, |w|, x);
    assert forall j: nat :: j >= |w| ==> !Below(w, i, j, x);
  }

  lemma ZeroFairMore(w: seq<Ev>, e: Ev, i: nat, x: int)
    requires i < |w|
    ensures ZeroThenFair(w + [e], i, x) <==> OpenZero(e) || (ZeroThenFair(w, i, x) && !OpenBelow(e, x))
  {
    hide FairAfter;
    if ZeroThenFair(w + [e], i, x) {
      var z: nat :| ZeroAt(w + [e], i, z) && FairAfter(w + [e], i, z, x);
      ZeroMore(w, e, i, z); FairMore(w, e, i, z, x);
    }
    if ZeroThenFair(w, i, x) {
      var z: nat :| ZeroAt(w, i, z) && FairAfter(w, i, z, x);
      ZeroMore(w, e, i, z); FairMore(w, e, i, z, x);
    }
    ZeroMore(w, e, i, |w|); FairMore(w, e, i, |w|, x);
  }

  lemma ForgivenMore(w: seq<Ev>, e: Ev, i: nat, x: int)
    requires i < |w|
    ensures Forgiven(w + [e], i, x) <==>
      (Forgiven(w, i, x) && !OpenBelow(e, x)) || (e.Bought? && ZeroThenFair(w, i, x))
  {
    hide FairAfter;
    var v := w + [e];
    if Forgiven(v, i, x) {
      var z: nat, b: nat :| ZeroAt(v, i, z) && FairAfter(v, i, z, x) && z < b < |v| && v[b].Bought?;
      ZeroMore(w, e, i, z); FairMore(w, e, i, z, x);
      assert v[b] == if b < |w| then w[b] else e;
    }
    if Forgiven(w, i, x) && !OpenBelow(e, x) {
      var z: nat, b: nat :| ZeroAt(w, i, z) && FairAfter(w, i, z, x) && z < b < |w| && w[b].Bought?;
      ZeroMore(w, e, i, z); FairMore(w, e, i, z, x);
      assert v[b] == w[b];
    }
    if e.Bought? && ZeroThenFair(w, i, x) {
      var z: nat :| ZeroAt(w, i, z) && FairAfter(w, i, z, x);
      ZeroMore(w, e, i, z); FairMore(w, e, i, z, x);
      assert v[|w|] == e;
    }
  }

  lemma ForgivenIsFair(w: seq<Ev>, i: nat, x: int)
    ensures Forgiven(w, i, x) ==> ZeroThenFair(w, i, x)
    ensures ZeroThenFair(w, i, x) ==> AnyZero(w, i)
    ensures EndsAtZero(w, i) ==> AnyZero(w, i)
    ensures x >= 1 && AnyZero(w, i) ==> EverBelow(w, i, x)
    ensures x <= 0 && EverBelow(w, i, x) ==> EverBelow(w, i, 0)
  {
    hide FairAfter;
    if Forgiven(w, i, x) {
      var z: nat, b: nat :| ZeroAt(w, i, z) && FairAfter(w, i, z, x) && z < b < |w| && w[b].Bought?;
    }
    if x >= 1 && AnyZero(w, i) { var z: nat :| ZeroAt(w, i, z); assert Below(w, i, z, x); }
    if x <= 0 && EverBelow(w, i, x) { var j: nat :| Below(w, i, j, x); assert Below(w, i, j, 0); }
  }

  lemma ThresholdBelow(p0: int, bps: nat)
    requires p0 > 0
    ensures MinusBps(p0, bps) <= p0
  {
    assert p0 * bps >= 0;
  }

  /** What one event more does to every statement about the window. */
  lemma WindowMoves(w: seq<Ev>, e: Ev, i: nat, p0: int, x: int)
    requires i < |w|
    ensures forall y: int :: EverBelow(w + [e], i, y) <==> EverBelow(w, i, y) || OpenBelow(e, y)
    ensures forall y: int :: ZeroThenFair(w + [e], i, y) <==> OpenZero(e) || (ZeroThenFair(w, i, y) && !OpenBelow(e, y))
    ensures Forgiven(w + [e], i, x) <==> (Forgiven(w, i, x) && !OpenBelow(e, x)) || (e.Bought? && ZeroThenFair(w, i, x))
    ensures AnyZero(w + [e], i) <==> AnyZero(w, i) || OpenZero(e)
    ensures EndsAtZero(w + [e], i) <==> if e.Tick? && e.long then e.close == 0 else EndsAtZero(w, i)
    ensures LatelyBelow(w + [e], i, p0) <==> Plain(e) && (LatelyBelow(w, i, p0) || OpenBelow(e, p0))
  {
    hide EverBelow; hide ZeroThenFair; hide Forgiven; hide AnyZero; hide EndsAtZero; hide LatelyBelow;
    forall y: int ensures EverBelow(w + [e], i, y) <==> EverBelow(w, i, y) || OpenBelow(e, y) { EverMore(w, e, i, y); }
    forall y: int
      ensures ZeroThenFair(w + [e], i, y) <==> OpenZero(e) || (ZeroThenFair(w, i, y) && !OpenBelow(e, y))
    {
      ZeroFairMore(w, e, i, y);
    }
    ForgivenMore(w, e, i, x);
    AnyZeroMore(w, e, i);
    EndsMore(w, e, i);
    LatelyMore(w, e, i, p0);
  }

  lemma FlagsTick(cfg: Config, w: seq<Ev>, i: nat, s: State, e: Ev)
    requires i < |w| && Flags(cfg, w, i, s) && e.Tick? && (e.long ==> e.close >= 0)
    ensures var t := if e.long then Noted(cfg, s, e.close) else s;
      Flags(cfg, w + [e], i, t.(dipped := t.dipped && e.signal != Add))
  {
    hide EverBelow; hide LatelyBelow; hide MinusBps; hide ZeroThenFair; hide Forgiven; hide AnyZero; hide EndsAtZero;
    var limit := MinusBps(s.p0, cfg.maxDip);
    ThresholdBelow(s.p0, cfg.maxDip);
    WindowMoves(w, e, i, s.p0, limit);
    ForgivenIsFair(w, i, limit);
    ForgivenIsFair(w + [e], i, limit);
  }

  /** The state after a bar whose streak, mark and signal are those of tick e. */
  function Ticked(cfg: Config, s: State, e: Ev): State
    requires e.Tick?
  {
    var t := s.(up := if e.rose then s.up + 1 else 0, recover := if e.rose then s.recover + 1 else 0);
    var u := if e.long && s.p0 > 0 then Noted(cfg, t, e.close) else t;
    u.(up := if e.signal == Enter then 0 else u.up, recover := if e.signal == Add then 0 else u.recover,
      dipped := u.dipped && e.signal != Add)
  }

  lemma FlagsIgnore(cfg: Config, w: seq<Ev>, i: nat, s: State, up: nat, recover: nat)
    requires Flags(cfg, w, i, s)
    ensures Flags(cfg, w, i, s.(up := up, recover := recover))
  {}

  lemma TickSummarises(cfg: Config, w: seq<Ev>, s: State, e: Ev)
    requires Summarises(cfg, w, s) && e.Tick? && (e.long ==> e.close >= 0)
    ensures Summarises(cfg, w + [e], Ticked(cfg, s, e))
  {
    hide Flags; hide RoseLast; hide UpLast; hide Ticks; hide NoBuy; hide FirstBuy; hide MinusBps;
    StreaksMore(w, e, s.recover, s.up);
    FirstBuyMore(w, e);
    var t := Ticked(cfg, s, e);
    if s.p0 != 0 {
      var i: nat :| FirstBuy(w, i, s.p0) && Flags(cfg, w, i, s);
      FirstIsInside(w, i, s.p0);
      PriceOfFlags(cfg, w, i, s);
      FlagsTick(cfg, w, i, s, e);
      var u := if e.long then Noted(cfg, s, e.close) else s;
      FlagsIgnore(cfg, w + [e], i, u.(dipped := u.dipped && e.signal != Add), t.up, t.recover);
      assert FirstBuy(w + [e], i, t.p0) && Flags(cfg, w + [e], i, t);
    }
  }

  lemma FirstIsInside(w: seq<Ev>, i: nat, price: int)
    ensures FirstBuy(w, i, price) ==> i < |w|
  {}

  lemma PriceOfFlags(cfg: Config, w: seq<Ev>, i: nat, s: State)
    ensures Flags(cfg, w, i, s) ==> s.p0 > 0
  {}

  lemma FillSummarises(cfg: Config, w: seq<Ev>, s: State, f: Fill)
    requires Summarises(cfg, w, s) && f.side == Buy && f.price > 0
    ensures Summarises(cfg, w + [Bought(f.price)], OnFill(cfg, s, f))
  {
    hide Flags; hide RoseLast; hide UpLast; hide Ticks; hide NoBuy; hide FirstBuy; hide MinusBps;
    var e := Bought(f.price);
    StreaksMore(w, e, s.recover, s.up);
    FirstBuyMore(w, e);
    var t := OnFill(cfg, s, f);
    if s.p0 != 0 {
      var i: nat :| FirstBuy(w, i, s.p0) && Flags(cfg, w, i, s);
      FirstIsInside(w, i, s.p0);
      FlagsBought(cfg, w, i, s, f);
      assert FirstBuy(w + [e], i, t.p0) && Flags(cfg, w + [e], i, t);
    } else {
      FlagsFirst(cfg, w, s, f);
      assert FirstBuy(w + [e], |w|, t.p0) && Flags(cfg, w + [e], |w|, t);
    }
  }

  lemma FlagsBought(cfg: Config, w: seq<Ev>, i: nat, s: State, f: Fill)
    requires i < |w| && Flags(cfg, w, i, s) && f.side == Buy
    ensures Flags(cfg, w + [Bought(f.price)], i, OnFill(cfg, s, f))
  {
    hide EverBelow; hide LatelyBelow; hide MinusBps; hide ZeroThenFair; hide Forgiven; hide AnyZero; hide EndsAtZero;
    var limit := MinusBps(s.p0, cfg.maxDip);
    ThresholdBelow(s.p0, cfg.maxDip);
    WindowMoves(w, Bought(f.price), i, s.p0, limit);
    ForgivenIsFair(w, i, limit);
  }

  lemma FlagsFirst(cfg: Config, w: seq<Ev>, s: State, f: Fill)
    requires s.p0 == 0 && f.side == Buy && f.price > 0
    ensures Flags(cfg, w + [Bought(f.price)], |w|, OnFill(cfg, s, f))
  {
    hide MinusBps;
    ThresholdBelow(f.price, cfg.maxDip);
    var v := w + [Bought(f.price)];
    forall j: nat, x: int ensures !Below(v, |w|, j, x) {}
    forall j: nat ensures !ZeroAt(v, |w|, j) {}
  }

  lemma EmptySummarised(cfg: Config, s: State)
    requires s == ResetCycle(s)
    ensures Summarises(cfg, [], s)
  {}

  // ---------------------------------------------------------------- the whole life

  function TickOf(trace: seq<Ev>, bar: BarEvent, position: nat, signal: Signal): Ev {
    Tick(DayOf(bar.candle.ts), MinuteOf(bar.candle.ts), bar.candle.close, position > 0,
      Rises(trace, DayOf(bar.candle.ts), bar.candle.close), signal)
  }

  lemma LastTickMore(trace: seq<Ev>, e: Ev)
    ensures LastTick(trace + [e]) == if e.Tick? then Some(e) else LastTick(trace)
  {
    assert (trace + [e])[..|trace|] == trace;
  }

  lemma WindowMore(trace: seq<Ev>, e: Ev)
    ensures Window(trace + [e]) == if e.Sold? then [] else if Opens(trace, e) then [e] else Window(trace) + [e]
  {
    assert (trace + [e])[..|trace|] == trace;
  }

  /** Judging a bar, before and after its signal is acted on, in terms of the window that ends with it. */
  lemma BarSummarises(cfg: Config, trace: seq<Ev>, s: State, bar: BarEvent, position: nat)
    requires Remembers(trace, s) && Summarises(cfg, Window(trace), s) && bar.symbol == cfg.symbol
      && (position > 0 ==> bar.candle.close >= 0)
    ensures var (t, signal) := Judged(cfg, s, bar, position);
      && Summarises(cfg, Window(trace + [TickOf(trace, bar, position, Quiet)]), t)
      && Summarises(cfg, Window(trace + [TickOf(trace, bar, position, signal)]), OnBarState(cfg, s, bar, position))
  {
    hide Summarises; hide Window; hide LastTick; hide MinuteOf; hide DayOf; hide SellDue; hide AddDue; hide EntryDue;
    hide Noted;
    var (t, signal) := Judged(cfg, s, bar, position);
    var q, e := TickOf(trace, bar, position, Quiet), TickOf(trace, bar, position, signal);
    WindowMore(trace, q);
    WindowMore(trace, e);
    var fresh0 := s.day != DayOf(bar.candle.ts);
    var s0 := if fresh0 then ResetSession(s).(day := DayOf(bar.candle.ts)) else s;
    var w := if fresh0 then [] else Window(trace);
    if fresh0 { EmptySummarised(cfg, s0); assert [] + [q] == [q] && [] + [e] == [e]; } else {
      SummaryIgnores(cfg, w, s, s0);
    }
    TickSummarises(cfg, w, s0, q);
    TickSummarises(cfg, w, s0, e);
    EntryNotNegative(cfg, w, s0);
    TickedIsJudged(cfg, s0, bar, position, q, e);
    SummaryIgnores(cfg, w + [q], Ticked(cfg, s0, q), t);
    SummaryIgnores(cfg, w + [e], Ticked(cfg, s0, e), OnBarState(cfg, s, bar, position));
  }

  lemma EntryNotNegative(cfg: Config, w: seq<Ev>, s: State)
    ensures Summarises(cfg, w, s) ==> s.p0 >= 0
  {}

  /** The summary does not mention the previous close. */
  lemma SummaryIgnores(cfg: Config, w: seq<Ev>, s: State, t: State)
    requires t == s.(day := t.day, havePrev := t.havePrev, prevClose := t.prevClose)
    ensures Summarises(cfg, w, s) ==> Summarises(cfg, w, t)
  {
    hide RoseLast; hide UpLast; hide Ticks; hide NoBuy; hide FirstBuy; hide EverBelow; hide LatelyBelow; hide MinusBps;
    forall i: nat ensures Flags(cfg, w, i, s) <==> Flags(cfg, w, i, t) {}
  }

  lemma TickedIsJudged(cfg: Config, s0: State, bar: BarEvent, position: nat, q: Ev, e: Ev)
    requires s0.day == DayOf(bar.candle.ts) && bar.symbol == cfg.symbol
    requires q.Tick? && q.close == bar.candle.close && q.long == (position > 0) && q.rose == Rose(s0, bar.candle.close)
      && q.signal == Quiet
    requires !s0.havePrev ==> s0.up == 0 && s0.recover == 0
    requires s0.p0 >= 0
    requires e == q.(signal := Judged(cfg, s0, bar, position).1)
    ensures Ticked(cfg, s0, q) == Judged(cfg, s0, bar, position).0
    ensures var t := OnBarState(cfg, s0, bar, position);
      t == Ticked(cfg, s0, e).(havePrev := t.havePrev, prevClose := t.prevClose)
  {
    hide SellDue; hide AddDue; hide EntryDue; hide MinusBps;
  }

  /** For any bars and fills at positive prices: the state summarises the window of the trace exactly. */
  lemma {:induction false} LifeIsSummarised(cfg: Config, inputs: seq<Input>)
    requires forall i :: 0 <= i < |inputs| ==> Priced(inputs[i])
    ensures var (s, trace) := Life(cfg, inputs); Remembers(trace, s) && Summarises(cfg, Window(trace), s)
  {
    hide Summarises; hide Window; hide LastTick; hide Judged; hide OnFill;
    if inputs == [] {
      EmptySummarised(cfg, CONFIGURED);
      NothingYet();
    } else {
      var n := |inputs| - 1;
      LifeIsSummarised(cfg, inputs[..n]);
      var (s, trace) := Life(cfg, inputs[..n]);
      StepSummarises(cfg, s, trace, inputs[n]);
    }
  }

  lemma NothingYet()
    ensures LastTick([]) == None && Window([]) == []
  {}

  lemma StepSummarises(cfg: Config, s: State, trace: seq<Ev>, input: Input)
    requires Remembers(trace, s) && Summarises(cfg, Window(trace), s) && Priced(input)
    ensures var (t, more) := (Next(cfg, s, input), Extended(cfg, s, trace, input));
      Remembers(more, t) && Summarises(cfg, Window(more), t)
  {
    hide Summarises; hide Window; hide LastTick; hide Judged; hide MinusBps;
    match input
    case FillIn(f) =>
      var e := if f.side == Buy then Bought(f.price) else Sold;
      WindowMore(trace, e);
      LastTickMore(trace, e);
      if f.side == Buy { FillSummarises(cfg, Window(trace), s, f); } else { EmptySummarised(cfg, ResetCycle(s)); }
    case BarIn(bar, position) =>
      if bar.symbol == cfg.symbol {
        BarSummarises(cfg, trace, s, bar, position);
        LastTickMore(trace, TickOf(trace, bar, position, Judged(cfg, s, bar, position).1));
        JudgedDay(cfg, s, bar, position);
      }
  }

  lemma JudgedDay(cfg: Config, s: State, bar: BarEvent, position: nat)
    ensures Judged(cfg, s, bar, position).0.day == DayOf(bar.candle.ts)
  {
    hide MinusBps; hide SellDue; hide AddDue; hide EntryDue;
  }

  // ---------------------------------------------------------------- the lowest close and the dip limit

  /** m is the lowest of p0 and the closes since event i with the position open. */
  ghost predicate Lowest(w: seq<Ev>, i: nat, p0: int, m: int) {
    m <= p0 && !EverBelow(w, i, m) && (m == p0 || EverBelow(w, i, m + 1))
  }

  lemma FlagsMean(cfg: Config, w: seq<Ev>, i: nat, s: State)
    requires Flags(cfg, w, i, s)
    ensures Lowest(w, i, s.p0, s.minClose) <==> (AnyZero(w, i) ==> EndsAtZero(w, i))
    ensures var limit := MinusBps(s.p0, cfg.maxDip);
      (s.disqualified <==> EverBelow(w, i, limit)) <==> !(EverBelow(w, i, limit) && Forgiven(w, i, limit))
  {
    hide EverBelow; hide ZeroThenFair; hide Forgiven; hide AnyZero; hide EndsAtZero; hide LatelyBelow; hide MinusBps;
    ForgivenIsFair(w, i, s.minClose);
    ForgivenIsFair(w, i, s.minClose + 1);
    ForgivenIsFair(w, i, 1);
  }

  /** The remembered close is the lowest one exactly when the last bar with the position open closed at zero
      or none did; the dip flag tells whether a close ever fell below the limit exactly when
      none that did was forgiven by a buy after a close of zero. */
  lemma LowestCloseIff(cfg: Config, inputs: seq<Input>, i: nat, p0: int)
    requires forall k :: 0 <= k < |inputs| ==> Priced(inputs[k])
    requires FirstBuy(Window(Life(cfg, inputs).1), i, p0)
    ensures var (s, w) := (Life(cfg, inputs).0, Window(Life(cfg, inputs).1));
      var limit := MinusBps(p0, cfg.maxDip);
      && s.p0 == p0
      && (Lowest(w, i, p0, s.minClose) <==> (AnyZero(w, i) ==> EndsAtZero(w, i)))
      && ((s.disqualified <==> EverBelow(w, i, limit)) <==> !(EverBelow(w, i, limit) && Forgiven(w, i, limit)))
  {
    hide Life; hide Window; hide Flags; hide Summarises; hide MinusBps;
    hide EverBelow; hide Forgiven; hide AnyZero; hide EndsAtZero; hide Lowest;
    LifeIsSummarised(cfg, inputs);
    var (s, trace) := Life(cfg, inputs);
    EntryOf(cfg, Window(trace), s);
    FlagsMean(cfg, Window(trace), i, s);
  }

  /** Without a close of zero the dip limit means what it says. */
  lemma NoZeroNothingForgiven(w: seq<Ev>, i: nat, x: int)
    requires !AnyZero(w, i)
    ensures TooDeep(w, i, x) <==> EverBelow(w, i, x)
  {
    hide EverBelow;
    ForgivenIsFair(w, i, x);
  }

  // ---------------------------------------------------------------- when exactly each signal is given

  /** The window is the stretch of the trace since the last sale, or since the bar that opened the session. */
  ghost predicate IsCycle(trace: seq<Ev>, k: nat) {
    && k <= |trace|
    && (forall j :: k <= j < |trace| ==> !trace[j].Sold?)
    && (forall j :: k < j < |trace| ==> !Opens(trace[..j], trace[j]))
    && (k > 0 ==> trace[k - 1].Sold? || (k < |trace| && Opens(trace[..k], trace[k])))
  }

  lemma {:induction false} WindowIsCycle(trace: seq<Ev>)
    ensures exists k: nat :: IsCycle(trace, k) && Window(trace) == trace[k..]
  {
    hide LastTick; hide Opens;
    if trace == [] {
      assert IsCycle(trace, 0) && Window(trace) == trace[0..];
    } else {
      var n := |trace| - 1;
      WindowIsCycle(trace[..n]);
      if trace[n].Sold? {
        assert IsCycle(trace, n + 1) && Window(trace) == trace[n + 1..];
      } else if Opens(trace[..n], trace[n]) {
        assert IsCycle(trace, n) && Window(trace) == trace[n..];
      } else {
        var k: nat :| IsCycle(trace[..n], k) && Window(trace[..n]) == trace[..n][k..];
        assert trace[k..] == trace[..n][k..] + [trace[n]];
        CycleGoesOn(trace, k);
      }
    }
  }

  lemma CycleGoesOn(trace: seq<Ev>, k: nat)
    requires trace != [] && IsCycle(trace[..|trace| - 1], k)
    requires !trace[|trace| - 1].Sold? && !Opens(trace[..|trace| - 1], trace[|trace| - 1])
    ensures IsCycle(trace, k)
  {
    hide LastTick; hide Opens;
    var t := trace[..|trace| - 1];
    forall j | k < j < |trace| ensures !Opens(trace[..j], trace[j]) {
      if j < |t| { assert t[..j] == trace[..j] && t[j] == trace[j]; }
    }
    assert k > 0 ==> t[k - 1] == trace[k - 1];
    if k < |t| { assert t[..k] == trace[..k] && t[k] == trace[k]; }
  }

  lemma OneFirstBuy(w: seq<Ev>, i: nat, p: int, j: nat, q: int)
    requires FirstBuy(w, i, p) && FirstBuy(w, j, q)
    ensures i == j && p == q
  {}

  /** In the cycle w, which ends with the bar being judged, the position may be added to. */
  ghost predicate AddExpected(cfg: Config, w: seq<Ev>, close: int, minute: nat) {
    exists i: nat, p0: int :: FirstBuy(w, i, p0) && AddJustified(cfg, w, i, p0, close, minute)
  }

  /** Before 13:00, between stop and target, never too deep below the first fill, some close
      below it since the last clip or add, and the last bars rose without interruption. */
  ghost predicate AddJustified(cfg: Config, w: seq<Ev>, i: nat, p0: int, close: int, minute: nat) {
    && minute < 780 && MinusBps(p0, cfg.stop) < close < PlusBps(p0, cfg.takeProfit)
    && !TooDeep(w, i, MinusBps(p0, cfg.maxDip)) && LatelyBelow(w, i, p0) && RoseLast(w, cfg.addUp)
  }

  ghost predicate SellExpected(cfg: Config, w: seq<Ev>, close: int, minute: nat, falls: bool) {
    exists i: nat, p0: int :: FirstBuy(w, i, p0) &&
      (close >= PlusBps(p0, cfg.takeProfit) || close <= MinusBps(p0, cfg.stop) || (minute >= 870 && falls))
  }

  predicate SameSession(trace: seq<Ev>, day: nat) {
    LastTick(trace).Some? && LastTick(trace).value.Tick? && LastTick(trace).value.day == day
  }

  predicate Falls(trace: seq<Ev>, day: nat, close: int) {
    SameSession(trace, day) && LastTick(trace).value.close > close
  }

  lemma EntryOf(cfg: Config, w: seq<Ev>, t: State)
    requires Summarises(cfg, w, t)
    ensures t.p0 > 0 ==> exists i: nat :: FirstBuy(w, i, t.p0) && Flags(cfg, w, i, t)
    ensures t.p0 <= 0 ==> NoBuy(w)
    ensures forall i: nat, p: int :: FirstBuy(w, i, p) ==> t.p0 == p && Flags(cfg, w, i, t)
    ensures RoseLast(w, cfg.addUp) <==> t.recover >= cfg.addUp
    ensures UpLast(Ticks(w), cfg.entryUp) <==> t.up >= cfg.entryUp
  {
    hide RoseLast; hide UpLast; hide Ticks; hide EverBelow; hide LatelyBelow; hide MinusBps;
    forall i: nat, p: int | FirstBuy(w, i, p) ensures t.p0 == p && Flags(cfg, w, i, t) {
      if t.p0 != 0 {
        var j: nat :| FirstBuy(w, j, t.p0) && Flags(cfg, w, j, t);
        OneFirstBuy(w, i, p, j, t.p0);
      }
    }
  }

  lemma AddOf(cfg: Config, w: seq<Ev>, t: State, close: int, minute: nat, falls: bool)
    requires Summarises(cfg, w, t)
    ensures t.p0 > 0 && MinusBps(t.p0, cfg.stop) < close < PlusBps(t.p0, cfg.takeProfit) && AddDue(cfg, t, minute) <==>
      AddExpected(cfg, w, close, minute)
    ensures t.p0 > 0 && (close >= PlusBps(t.p0, cfg.takeProfit) || close <= MinusBps(t.p0, cfg.stop)
      || (minute >= LAST_HOUR && falls))
      <==> SellExpected(cfg, w, close, minute, falls)
  {
    hide RoseLast; hide UpLast; hide Ticks; hide EverBelow; hide LatelyBelow; hide MinusBps; hide PlusBps;
    hide FirstBuy; hide Summarises;
    EntryOf(cfg, w, t);
    if t.p0 > 0 {
      var i: nat :| FirstBuy(w, i, t.p0) && Flags(cfg, w, i, t);
      if AddDue(cfg, t, minute) && MinusBps(t.p0, cfg.stop) < close < PlusBps(t.p0, cfg.takeProfit) {
        assert AddJustified(cfg, w, i, t.p0, close, minute);
      }
    }
  }

  /** The three signals, each exactly when the history calls for it, for any bars and fills at positive
      prices: what the flags and counters decide is what the events of the current cycle say. */
  lemma SignalsIff(cfg: Config, inputs: seq<Input>, bar: BarEvent, position: nat)
    requires forall i :: 0 <= i < |inputs| ==> Priced(inputs[i])
    requires bar.symbol == cfg.symbol && (position > 0 ==> bar.candle.close >= 0)
    ensures var (s, trace) := Life(cfg, inputs);
      var w := Window(trace + [TickOf(trace, bar, position, Quiet)]);
      var (signal, close, day, minute) :=
        (Judged(cfg, s, bar, position).1, bar.candle.close, DayOf(bar.candle.ts), MinuteOf(bar.candle.ts));
      && (signal == SellAll <==> position > 0 && SellExpected(cfg, w, close, minute, Falls(trace, day, close)))
      && (signal == Add <==> position > 0 && AddExpected(cfg, w, close, minute))
      && (signal == Enter <==>
        position == 0 && minute < 870 && SameSession(trace, day) && UpLast(Ticks(w), cfg.entryUp))
  {
    hide Summarises; hide Window; hide LastTick; hide MinuteOf; hide DayOf; hide MinusBps; hide PlusBps; hide UpLast;
    hide Ticks;
    hide AddExpected; hide SellExpected; hide Life;
    LifeIsSummarised(cfg, inputs);
    var (s, trace) := Life(cfg, inputs);
    BarSummarises(cfg, trace, s, bar, position);
    var w := Window(trace + [TickOf(trace, bar, position, Quiet)]);
    var t := Judged(cfg, s, bar, position).0;
    EntryOf(cfg, w, t);
    AddOf(cfg, w, t, bar.candle.close, MinuteOf(bar.candle.ts), Falls(trace, DayOf(bar.candle.ts), bar.candle.close));
  }

  /** What a signal orders: nothing, the sale of the whole position, or the purchase of as many shares as the
      clip pays for at the close, but at least one. */
  lemma OneOrderPerBar(cfg: Config, s: State, bar: BarEvent, position: nat)
    ensures bar.symbol != cfg.symbol ==> OnBarIntents(cfg, s, bar, position) == []
    ensures bar.symbol == cfg.symbol ==>
      var (out, signal, close) :=
        (OnBarIntents(cfg, s, bar, position), Judged(cfg, s, bar, position).1, bar.candle.close);
      && (signal == Quiet ==> out == [])
      && (signal == SellAll ==> position > 0 && out == [Intent(4, cfg.symbol, Sell, position, 0)])
      && (signal == Add || signal == Enter ==>
            && |out| == 1 && out[0] == Intent(4, cfg.symbol, Buy, out[0].qty, 0)
            && (if cfg.clip > 0 && close > 0 then
                  && out[0].qty >= 1 && (out[0].qty == 1 || out[0].qty * close <= cfg.clip)
                  && (out[0].qty + 1) * close > cfg.clip
                else out[0].qty == 0))
  {
    hide MinusBps; hide PlusBps; hide MinuteOf; hide DayOf; hide Noted;
    if cfg.clip > 0 && bar.candle.close > 0 { ClipFits(cfg.clip, bar.candle.close); }
  }

  lemma ClipFits(clip: int, price: int)
    requires clip > 0 && price > 0
    ensures clip / price * price <= clip && clip / price >= 0
    ensures (clip / price + 1) * price > clip && (clip / price == 0 ==> (1 + 1) * price > clip)
  {
    var q := clip / price;
    assert clip == q * price + clip % price && (q + 1) * price == q * price + price;
  }

  /** The limits are the entry price moved by the basis points, to the paisa below the exact distance. */
  lemma BasisPoints(price: nat, bps: nat)
    ensures PlusBps(price, bps) - price == price - MinusBps(price, bps)
    ensures var up := PlusBps(price, bps) - price; 0 <= 10_000 * up <= price * bps < 10_000 * up + 10_000
  {
    assert price * bps >= 0;
  }

  /** A tick of the trace is its bar: the UTC day and the IST minute of its time, its close. */
  lemma TickIsBar(cfg: Config, s: State, trace: seq<Ev>, bar: BarEvent, position: nat)
    requires bar.symbol == cfg.symbol
    ensures var e := TickOf(trace, bar, position, Judged(cfg, s, bar, position).1);
      && Extended(cfg, s, trace, BarIn(bar, position)) == trace + [e]
      && e.day == bar.candle.ts / 86_400_000_000_000 && e.minute == (bar.candle.ts / 60_000_000_000 + 330) % 1440
      && e.close == bar.candle.close && e.long == (position > 0)
  {
    MinuteIsIstMinute(bar.candle.ts);
    IstClock(bar.candle.ts);
    hide Judged; hide Rises; hide MinuteOf; hide IstMinuteOfDay; hide IstDay;
  }

  /** A position carried into a new session is never sold nor added to: without a fill of its own in the
      cycle the strategy stays quiet. */
  lemma CarriedPositionIsIgnored(cfg: Config, inputs: seq<Input>, bar: BarEvent, position: nat)
    requires forall i :: 0 <= i < |inputs| ==> Priced(inputs[i])
    requires bar.symbol == cfg.symbol && bar.candle.close >= 0 && position > 0
    requires NoBuy(Window(Life(cfg, inputs).1 + [TickOf(Life(cfg, inputs).1, bar, position, Quiet)]))
    ensures OnBarIntents(cfg, Life(cfg, inputs).0, bar, position) == []
  {
    hide Life; hide Window; hide Judged; hide AddJustified; hide MinusBps; hide PlusBps;
    SignalsIff(cfg, inputs, bar, position);
  }

  class ConsecutiveUpClip {
    const config: Config
    var sessionDay: int
    var havePrev: bool
    var prevClose: int
    var upStreak: nat
    var recoverStreak: nat
    var p0: int
    var minClose: int
    var dipped: bool
    var disqualified: bool

    function Now(): State
      reads this
    {
      State(sessionDay, havePrev, prevClose, upStreak, recoverStreak, p0, minClose, dipped, disqualified)
    }

    constructor (config: Config)
      ensures this.config == config && Now() == CONFIGURED
    {
      this.config := config;
      sessionDay, havePrev, prevClose, upStreak, recoverStreak := -1, false, 0, 0, 0;
      p0, minClose, dipped, disqualified := 0, 0, false, false;
    }

    method ClearCycle()
      modifies this
      ensures Now() == ResetCycle(old(Now()))
    {
      upStreak, recoverStreak, p0, minClose, dipped, disqualified := 0, 0, 0, 0, false, false;
    }

    method Prepare(day: nat, close: int)
      modifies this
      ensures var s := old(Now()); Now() == Streaks(if s.day != day then ResetSession(s).(day := day) else s, close)
    {
      if sessionDay != day {
        sessionDay := day;
        ClearCycle();
        havePrev, prevClose := false, 0;
      }
      if havePrev {
        if close > prevClose {
          upStreak, recoverStreak := upStreak + 1, recoverStreak + 1;
        } else {
          upStreak, recoverStreak := 0, 0;
        }
      }
    }

    method Note(close: int)
      modifies this
      ensures Now() == Noted(config, old(Now()), close)
    {
      if minClose == 0 || close < minClose { minClose := close; }
      if close < p0 { dipped := true; }
      if minClose < MinusBps(p0, config.maxDip) { disqualified := true; }
    }

    method OnBar(bar: BarEvent, position: nat) returns (out: seq<Intent>)
      modifies this
      ensures Now() == OnBarState(config, old(Now()), bar, position)
      ensures out == OnBarIntents(config, old(Now()), bar, position)
    {
      hide Noted; hide Streaks; hide MinusBps; hide PlusBps; hide MinuteOf; hide DayOf;
      out := [];
      if bar.symbol != config.symbol { return; }
      var close, minute := bar.candle.close, MinuteOf(bar.candle.ts);
      Prepare(DayOf(bar.candle.ts), close);
      if position > 0 && p0 > 0 {
        Note(close);
        if (minute >= LAST_HOUR && havePrev && close < prevClose)
           || close >= PlusBps(p0, config.takeProfit) || close <= MinusBps(p0, config.stop) {
          out := [Intent(STRATEGY_ID, config.symbol, Sell, position, 0)];
        } else if minute < NO_ADD_AFTER && !disqualified && dipped && recoverStreak >= config.addUp {
          out := [Intent(STRATEGY_ID, config.symbol, Buy, ClipQty(config, close), 0)];
          recoverStreak := 0;
          dipped := false;
        }
      } else if position == 0 && minute < LAST_HOUR && havePrev && upStreak >= config.entryUp {
        out := [Intent(STRATEGY_ID, config.symbol, Buy, ClipQty(config, close), 0)];
        upStreak := 0;
      }
      prevClose := close;
      havePrev := true;
    }

    method TakeFill(f: Fill)
      modifies this
      ensures Now() == OnFill(config, old(Now()), f)
    {
      hide MinusBps;
      if f.side == Buy {
        if p0 == 0 {
          p0 := f.price;
          minClose := f.price;
        }
        dipped := false;
        recoverStreak := 0;
        disqualified := minClose > 0 && minClose < MinusBps(p0, config.maxDip);
        return;
      }
      ClearCycle();
    }
  }
}
