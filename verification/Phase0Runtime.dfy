/** Five threads wired by bounded single-producer rings, started and stopped in two phases. Every
    atomic operation of every thread is one step; a run is any interleaving of steps. */
module Phase0 {
  datatype Kind = BarKind | FillKind | CommandKind | PersistKind

  datatype Dummy = Dummy(kind: Kind, symbol: nat, number: nat)

  const RING_CAPACITY := 1024
  const LOG_CAPACITY := 4096

  // ---------------------------------------------------------------- program counters

  /** Thread 0: a bar is routed, persisted, ordered, logged and counted; then a fill; then a command. */
  datatype HotPc =
    | HotOff | HotCheck
    | PopBar | PushRoute(e: Dummy) | PersistBar(e: Dummy) | PushOrder(e: Dummy) | LogBar | CountBar
    | PopFill | PersistFill(e: Dummy) | CountFill
    | PopCommand | CountCommand

  /** Thread 1. */
  datatype RoutePc = RouteOff | RouteCheck | PopRoute | PushCommand(e: Dummy) | PersistRoute(e: Dummy)

  /** Thread 3. */
  datatype ExecPc = ExecOff | ExecCheck | PopOrder | PushFill(e: Dummy) | PersistExec(e: Dummy)

  /** Thread 2: the loop takes from its four rings in turn; after the stop flag it drains each of them. */
  datatype KeeperPc = KeeperOff | KeeperCheck | Take(ring: nat) | Count(ring: nat) | Drain(ring: nat)
    | DrainCount(ring: nat)

  /** Thread 4. */
  datatype ApiPc = ApiOff | ApiCheck

  /** The thread that calls start and stop. */
  datatype ControlPc = Idle | Starting(next: nat) | Running | Stopping(next: nat)

  // ---------------------------------------------------------------- state

  /** keep holds the persist rings of threads 0, 1 and 3, and the log ring. */
  datatype Rings = Rings(
    market: seq<Dummy>, routing: seq<Dummy>, orders: seq<Dummy>, fillIn: seq<Dummy>, command: seq<Dummy>,
    keep0: seq<Dummy>, keep1: seq<Dummy>, keep3: seq<Dummy>, log: seq<Dummy>)

  datatype Counters = Counters(bars: nat, fills: nat, commands: nat, persisted: nat, logged: nat)

  /** What was popped by thread 0, what the keeper's rings accepted, and what was refused where. */
  datatype History = History(
    bars: seq<Dummy>, fills: seq<Dummy>, commands: seq<Dummy>,
    accepted: nat, acceptedLogs: nat,
    lostRoutes: nat, lostOrders: nat, lostFills: nat, lostCommands: nat, lostPersists: nat, lostLogs: nat)

  datatype System = System(
    control: ControlPc, stopWorkers: bool, stopPersist: bool,
    hot: HotPc, route: RoutePc, keeper: KeeperPc, exec: ExecPc, api: ApiPc,
    rings: Rings, counters: Counters, history: History)

  const INIT := System(
    Idle, true, true, HotOff, RouteOff, KeeperOff, ExecOff, ApiOff,
    Rings([], [], [], [], [], [], [], [], []), Counters(0, 0, 0, 0, 0),
    History([], [], [], 0, 0, 0, 0, 0, 0, 0, 0))

  /** A push is accepted only if there is room, and may be refused even then. */
  predicate Fits(ring: seq<Dummy>, capacity: nat, willing: bool) { willing && |ring| < capacity }

  function AsKind(e: Dummy, k: Kind): Dummy { e.(kind := k) }

  /** Thread 0, 1 or 3 hands an event to the keeper. */
  function Persist(s: System, thread: nat, e: Dummy, ok: bool): System {
    var r, h, p := s.rings, s.history, AsKind(e, PersistKind);
    var ring := if thread == 0 then r.keep0 else if thread == 1 then r.keep1 else r.keep3;
    if !Fits(ring, RING_CAPACITY, ok) then s.(history := h.(lostPersists := h.lostPersists + 1))
    else
      s.(history := h.(accepted := h.accepted + 1),
         rings := if thread == 0 then r.(keep0 := ring + [p]) else if thread == 1 then r.(keep1 := ring + [p])
           else r.(keep3 := ring + [p]))
  }

  // ---------------------------------------------------------------- the threads

  function HotStep(s: System, ok: bool): System {
    match s.hot
    case HotOff => s
    case HotCheck => s.(hot := if s.stopWorkers then HotOff else PopBar)
    case PopFill => FillPhase(s, ok)
    case PersistFill(_) => FillPhase(s, ok)
    case CountFill => FillPhase(s, ok)
    case PopCommand => CommandPhase(s)
    case CountCommand => CommandPhase(s)
    case _ => BarPhase(s, ok)
  }

  function BarPhase(s: System, ok: bool): System {
    var r, h, c := s.rings, s.history, s.counters;
    match s.hot
    case PopBar =>
      if r.market == [] then s.(hot := PopFill)
      else s.(hot := PushRoute(r.market[0]), rings := r.(market := r.market[1..]),
        history := h.(bars := h.bars + [r.market[0]]))
    case PushRoute(e) =>
      if Fits(r.routing, RING_CAPACITY, ok) then s.(hot := PersistBar(e), rings := r.(routing := r.routing + [e]))
      else s.(hot := PersistBar(e), history := h.(lostRoutes := h.lostRoutes + 1))
    case PersistBar(e) => Persist(s, 0, e, ok).(hot := PushOrder(e))
    case PushOrder(e) =>
      if Fits(r.orders, RING_CAPACITY, ok) then s.(hot := LogBar, rings := r.(orders := r.orders + [e]))
      else s.(hot := LogBar, history := h.(lostOrders := h.lostOrders + 1))
    case LogBar =>
      if Fits(r.log, LOG_CAPACITY, ok)
      then s.(hot := CountBar, rings := r.(log := r.log + [Dummy(BarKind, 0, 0)]),
        history := h.(acceptedLogs := h.acceptedLogs + 1))
      else s.(hot := CountBar, history := h.(lostLogs := h.lostLogs + 1))
    case CountBar => s.(hot := PopFill, counters := c.(bars := c.bars + 1))
    case _ => s
  }

  function FillPhase(s: System, ok: bool): System {
    var r, h, c := s.rings, s.history, s.counters;
    match s.hot
    case PopFill =>
      if r.fillIn == [] then s.(hot := PopCommand)
      else s.(hot := PersistFill(r.fillIn[0]), rings := r.(fillIn := r.fillIn[1..]),
        history := h.(fills := h.fills + [r.fillIn[0]]))
    case PersistFill(e) => Persist(s, 0, e, ok).(hot := CountFill)
    case CountFill => s.(hot := PopCommand, counters := c.(fills := c.fills + 1))
    case _ => s
  }

  function CommandPhase(s: System): System {
    var r, h, c := s.rings, s.history, s.counters;
    match s.hot
    case PopCommand =>
      if r.command == [] then s.(hot := HotCheck)
      else s.(hot := CountCommand, rings := r.(command := r.command[1..]),
        history := h.(commands := h.commands + [r.command[0]]))
    case CountCommand => s.(hot := HotCheck, counters := c.(commands := c.commands + 1))
    case _ => s
  }

  function RouteStep(s: System, ok: bool): System {
    var r, h := s.rings, s.history;
    match s.route
    case RouteOff => s
    case RouteCheck => s.(route := if s.stopWorkers then RouteOff else PopRoute)
    case PopRoute =>
      if r.routing == [] then s.(route := RouteCheck)
      else s.(route := PushCommand(r.routing[0]), rings := r.(routing := r.routing[1..]))
    case PushCommand(e) =>
      if Fits(r.command, RING_CAPACITY, ok)
        then s.(route := PersistRoute(e), rings := r.(command := r.command + [AsKind(e, CommandKind)]))
      else s.(route := PersistRoute(e), history := h.(lostCommands := h.lostCommands + 1))
    case PersistRoute(e) => Persist(s, 1, e, ok).(route := RouteCheck)
  }

  function ExecStep(s: System, ok: bool): System {
    var r, h := s.rings, s.history;
    match s.exec
    case ExecOff => s
    case ExecCheck => s.(exec := if s.stopWorkers then ExecOff else PopOrder)
    case PopOrder =>
      if r.orders == [] then s.(exec := ExecCheck)
      else s.(exec := PushFill(r.orders[0]), rings := r.(orders := r.orders[1..]))
    case PushFill(e) =>
      if Fits(r.fillIn, RING_CAPACITY, ok)
        then s.(exec := PersistExec(e), rings := r.(fillIn := r.fillIn + [AsKind(e, FillKind)]))
      else s.(exec := PersistExec(e), history := h.(lostFills := h.lostFills + 1))
    case PersistExec(e) => Persist(s, 3, e, ok).(exec := ExecCheck)
  }

  /** The keeper's rings in the order it visits them. */
  function KeepRing(r: Rings, i: nat): seq<Dummy> {
    if i == 0 then r.keep0 else if i == 1 then r.keep1 else if i == 2 then r.keep3 else r.log
  }

  function PopKept(r: Rings, i: nat): Rings
    requires KeepRing(r, i) != []
  {
    if i == 0 then r.(keep0 := r.keep0[1..]) else if i == 1 then r.(keep1 := r.keep1[1..])
    else if i == 2 then r.(keep3 := r.keep3[1..]) else r.(log := r.log[1..])
  }

  function CountKept(c: Counters, i: nat): Counters {
    if i < 3 then c.(persisted := c.persisted + 1) else c.(logged := c.logged + 1)
  }

  function KeeperStep(s: System): System {
    match s.keeper
    case KeeperOff => s
    case KeeperCheck => s.(keeper := if s.stopPersist then Drain(0) else Take(0))
    case Take(i) =>
      if i >= 4 then s.(keeper := KeeperCheck)
      else if KeepRing(s.rings, i) == [] then s.(keeper := Take(i + 1))
      else s.(keeper := Count(i), rings := PopKept(s.rings, i))
    case Count(i) => s.(keeper := Take(i + 1), counters := CountKept(s.counters, i))
    case Drain(i) =>
      if i >= 4 then s.(keeper := KeeperOff)
      else if KeepRing(s.rings, i) == [] then s.(keeper := Drain(i + 1))
      else s.(keeper := DrainCount(i), rings := PopKept(s.rings, i))
    case DrainCount(i) => s.(keeper := Drain(i), counters := CountKept(s.counters, i))
  }

  function ApiStep(s: System): System {
    if s.api.ApiCheck? && s.stopWorkers then s.(api := ApiOff) else s
  }

  /** start and stop; a join waits until its thread is off. */
  function ControlStep(s: System, begin: bool): System {
    match s.control
    case Idle => if begin then s.(control := Starting(0), stopWorkers := false) else s
    case Starting(n) =>
      if n == 0 then s.(control := Starting(1), stopPersist := false)
      else if n == 1 then s.(control := Starting(2), hot := HotCheck)
      else if n == 2 then s.(control := Starting(3), route := RouteCheck)
      else if n == 3 then s.(control := Starting(4), keeper := KeeperCheck)
      else if n == 4 then s.(control := Starting(5), exec := ExecCheck)
      else s.(control := Running, api := ApiCheck)
    case Running => if begin then s else s.(control := Stopping(0), stopWorkers := true)
    case Stopping(n) =>
      if n == 0 then (if s.hot.HotOff? then s.(control := Stopping(1)) else s)
      else if n == 1 then (if s.route.RouteOff? then s.(control := Stopping(2)) else s)
      else if n == 2 then (if s.exec.ExecOff? then s.(control := Stopping(3)) else s)
      else if n == 3 then (if s.api.ApiOff? then s.(control := Stopping(4)) else s)
      else if n == 4 then s.(control := Stopping(5), stopPersist := true)
      else if s.keeper.KeeperOff? then s.(control := Idle) else s
  }

  /** Somebody outside offers a bar. */
  function Feed(s: System, e: Dummy, ok: bool): System {
    if Fits(s.rings.market, RING_CAPACITY, ok) then s.(rings := s.rings.(market := s.rings.market + [e])) else s
  }

  /** Who moves next; ok says whether a push the mover attempts is willingly accepted. */
  datatype Action = Hot(ok: bool) | Router(ok: bool) | Keeper | Executor(ok: bool) | Api | Control(begin: bool)
    | Outside(e: Dummy, ok: bool)

  function Step(s: System, a: Action): System {
    match a
    case Hot(ok) => HotStep(s, ok)
    case Router(ok) => RouteStep(s, ok)
    case Keeper => KeeperStep(s)
    case Executor(ok) => ExecStep(s, ok)
    case Api => ApiStep(s)
    case Control(begin) => ControlStep(s, begin)
    case Outside(e, ok) => Feed(s, e, ok)
  }

  function Run(s: System, actions: seq<Action>): System {
    if actions == [] then s else Step(Run(s, actions[..|actions| - 1]), actions[|actions| - 1])
  }

  // ---------------------------------------------------------------- the two-phase life cycle

  predicate WorkersOff(s: System) { s.hot.HotOff? && s.route.RouteOff? && s.exec.ExecOff? && s.api.ApiOff? }

  predicate KeptBelow(r: Rings, n: nat) {
    forall i :: 0 <= i < n && i < 4 ==> KeepRing(r, i) == []
  }

  predicate Draining(k: KeeperPc) { k.Drain? || k.DrainCount? }

  /** Which threads may run in each phase of start and stop. */
  ghost predicate Phased(s: System) {
    match s.control
    case Idle => s.stopWorkers && s.stopPersist && WorkersOff(s) && s.keeper.KeeperOff? && KeptBelow(s.rings, 4)
    case Starting(n) =>
      && !s.stopWorkers && n <= 5 && s.stopPersist == (n == 0)
      && (n <= 1 ==> s.hot.HotOff? && KeptBelow(s.rings, 4)) && (n <= 2 ==> s.route.RouteOff?)
      && (n <= 3 ==> s.keeper.KeeperOff?) && (n > 3 ==> !s.keeper.KeeperOff? && !Draining(s.keeper))
      && (n <= 4 ==> s.exec.ExecOff?) && s.api.ApiOff?
    case Running => !s.stopWorkers && !s.stopPersist && !s.keeper.KeeperOff? && !Draining(s.keeper)
    case Stopping(n) =>
      && s.stopWorkers && n <= 5 && s.stopPersist == (n == 5)
      && (n >= 1 ==> s.hot.HotOff?) && (n >= 2 ==> s.route.RouteOff?) && (n >= 3 ==> s.exec.ExecOff?)
        && (n >= 4 ==> s.api.ApiOff?)
      && (n < 5 ==> !s.keeper.KeeperOff? && !Draining(s.keeper))
      && (s.keeper.KeeperOff? ==> KeptBelow(s.rings, 4))
      && (Draining(s.keeper) ==> KeptBelow(s.rings, s.keeper.ring))
  }

  lemma PersistTouches(s: System, thread: nat, e: Dummy, ok: bool)
    ensures var t := Persist(s, thread, e, ok);
      && t.(rings := s.rings, history := s.history) == s
      && t.rings.(keep0 := s.rings.keep0, keep1 := s.rings.keep1, keep3 := s.rings.keep3) == s.rings
      && t.history.(accepted := s.history.accepted, lostPersists := s.history.lostPersists) == s.history
  {}

  /** Handling a bar leaves fills and commands alone, and offers the bar to the keeper once. */
  lemma BarLeaves(s: System, ok: bool)
    ensures var t := BarPhase(s, ok);
      && t == s.(hot := t.hot, rings := t.rings, counters := t.counters, history := t.history)
      && t.rings.fillIn == s.rings.fillIn && t.rings.command == s.rings.command
      && t.history.fills == s.history.fills && t.history.commands == s.history.commands
      && t.history.lostFills == s.history.lostFills && t.history.lostCommands == s.history.lostCommands
      && t.hot.PersistFill? == s.hot.PersistFill? && (t.hot.HotOff? ==> s.hot.HotOff?)
  {
    hide Fits; hide AsKind; hide Persist;
    if s.hot.PersistBar? { PersistTouches(s, 0, s.hot.e, ok); }
  }

  lemma FillLeaves(s: System, ok: bool)
    ensures var t := FillPhase(s, ok);
      && t == s.(hot := t.hot, rings := t.rings, counters := t.counters, history := t.history)
      && t.rings.command == s.rings.command
      && t.history.bars == s.history.bars && t.history.commands == s.history.commands
      && t.history.lostFills == s.history.lostFills && t.history.lostCommands == s.history.lostCommands
      && (t.hot.HotOff? ==> s.hot.HotOff?) && t.hot.PushRoute? == s.hot.PushRoute?
        && t.hot.PersistBar? == s.hot.PersistBar?
  {
    hide Fits; hide AsKind; hide Persist;
    if s.hot.PersistFill? { PersistTouches(s, 0, s.hot.e, ok); }
  }

  /** Thread 0 never touches flags or other threads, and leaves its loop only at the stop flag. */
  lemma HotTouches(s: System, ok: bool)
    ensures var t := HotStep(s, ok);
      && t == s.(hot := t.hot, rings := t.rings, counters := t.counters, history := t.history)
      && (s.hot.HotOff? ==> t == s)
      && (t.hot.HotOff? ==> s.hot.HotOff? || s.stopWorkers)
  {
    hide BarPhase; hide FillPhase;
    BarLeaves(s, ok);
    FillLeaves(s, ok);
  }

  lemma PhasedHot(s: System, ok: bool)
    requires Phased(s)
    ensures Phased(HotStep(s, ok))
  {
    hide KeptBelow; hide HotStep;
    HotTouches(s, ok);
  }

  lemma PhasedRoute(s: System, ok: bool)
    requires Phased(s)
    ensures Phased(RouteStep(s, ok))
  {
    hide KeptBelow;
  }

  lemma PhasedExec(s: System, ok: bool)
    requires Phased(s)
    ensures Phased(ExecStep(s, ok))
  {
    hide KeptBelow;
  }

  lemma PopKeeps(r: Rings, i: nat)
    requires i < 4 && KeepRing(r, i) != [] && KeptBelow(r, i)
    ensures KeptBelow(PopKept(r, i), i)
  {
    forall j | 0 <= j < i ensures KeepRing(PopKept(r, i), j) == [] { assert KeepRing(r, j) == []; }
  }

  lemma PhasedKeeper(s: System)
    requires Phased(s)
    ensures Phased(KeeperStep(s))
  {
    hide KeepRing; hide PopKept;
    if s.keeper.Drain? && s.keeper.ring < 4 && KeepRing(s.rings, s.keeper.ring) != [] {
      PopKeeps(s.rings, s.keeper.ring);
    }
  }

  lemma PhasedRest(s: System, a: Action)
    requires Phased(s) && (a.Control? || a.Api? || a.Outside?)
    ensures Phased(Step(s, a))
  {
    if a.Outside? {
      var r := Step(s, a).rings;
      forall i: nat | i < 4 ensures KeepRing(r, i) == KeepRing(s.rings, i) {}
    } else {
      assert Step(s, a).rings == s.rings;
      hide KeepRing;
    }
  }

  lemma PhasedStep(s: System, a: Action)
    requires Phased(s)
    ensures Phased(Step(s, a))
  {
    hide Phased;
    match a
    case Hot(ok) => PhasedHot(s, ok);
    case Router(ok) => PhasedRoute(s, ok);
    case Keeper => PhasedKeeper(s);
    case Executor(ok) => PhasedExec(s, ok);
    case _ => PhasedRest(s, a);
  }

  // ---------------------------------------------------------------- what the keeper was given, it counts

  function Kept(keep0: seq<Dummy>, keep1: seq<Dummy>, keep3: seq<Dummy>): nat { |keep0| + |keep1| + |keep3| }

  function InHand(k: KeeperPc, logs: bool): nat {
    if (k.Count? || k.DrainCount?) && (k.ring >= 3) == logs then 1 else 0
  }

  ghost predicate Accounted(s: System) {
    && s.history.accepted ==
      s.counters.persisted + InHand(s.keeper, false) + Kept(s.rings.keep0, s.rings.keep1, s.rings.keep3)
    && s.history.acceptedLogs == s.counters.logged + InHand(s.keeper, true) + |s.rings.log|
    && (s.keeper.Count? || s.keeper.DrainCount? ==> s.keeper.ring < 4)
  }

  /** Pushing a persist event counts it as accepted exactly when the ring took it. */
  lemma AccountedPersist(s: System, thread: nat, e: Dummy, ok: bool)
    requires Accounted(s)
    ensures var t := Persist(s, thread, e, ok); Accounted(t) && t.(rings := s.rings, history := s.history) == s
  {
    hide Fits; hide AsKind;
  }

  lemma AccountedBar(s: System, ok: bool)
    requires Accounted(s)
    ensures Accounted(BarPhase(s, ok))
  {
    hide Fits; hide AsKind; hide Persist; hide Kept; hide InHand;
    if s.hot.PersistBar? { AccountedPersist(s, 0, s.hot.e, ok); }
  }

  lemma AccountedFill(s: System, ok: bool)
    requires Accounted(s)
    ensures Accounted(FillPhase(s, ok))
  {
    hide Fits; hide AsKind; hide Persist; hide Kept; hide InHand;
    if s.hot.PersistFill? { AccountedPersist(s, 0, s.hot.e, ok); }
  }

  lemma AccountedCommand(s: System)
    requires Accounted(s)
    ensures Accounted(CommandPhase(s))
  {
    hide Fits; hide AsKind; hide Persist; hide Kept; hide InHand;
  }

  lemma AccountedHot(s: System, ok: bool)
    requires Accounted(s)
    ensures Accounted(HotStep(s, ok))
  {
    hide BarPhase; hide FillPhase; hide CommandPhase;
    AccountedBar(s, ok); AccountedFill(s, ok); AccountedCommand(s);
  }

  lemma AccountedRoute(s: System, ok: bool)
    requires Accounted(s)
    ensures Accounted(RouteStep(s, ok))
  {
    hide Persist; hide Fits; hide AsKind;
    if s.route.PersistRoute? { AccountedPersist(s, 1, s.route.e, ok); }
  }

  lemma AccountedExec(s: System, ok: bool)
    requires Accounted(s)
    ensures Accounted(ExecStep(s, ok))
  {
    hide Persist; hide Fits; hide AsKind;
    if s.exec.PersistExec? { AccountedPersist(s, 3, s.exec.e, ok); }
  }

  lemma AccountedKeeper(s: System)
    requires Accounted(s)
    ensures Accounted(KeeperStep(s))
  {}

  lemma AccountedStep(s: System, a: Action)
    requires Phased(s) && Accounted(s)
    ensures Accounted(Step(s, a))
  {
    hide HotStep; hide KeeperStep; hide RouteStep; hide ExecStep;
    match a
    case Hot(ok) => AccountedHot(s, ok);
    case Router(ok) => AccountedRoute(s, ok);
    case Executor(ok) => AccountedExec(s, ok);
    case Keeper => AccountedKeeper(s);
    case _ =>
  }

  // ---------------------------------------------------------------- subsequences

  /** xs is obtained from ys by leaving elements out. */
  ghost predicate Sub(xs: seq<Dummy>, ys: seq<Dummy>) {
    if xs == [] then true
    else if ys == [] then false
    else
      var m, n := |xs| - 1, |ys| - 1;
      (xs[m] == ys[n] && Sub(xs[..m], ys[..n])) || Sub(xs, ys[..n])
  }

  lemma SubMore(xs: seq<Dummy>, ys: seq<Dummy>, e: Dummy)
    requires Sub(xs, ys)
    ensures Sub(xs, ys + [e]) && Sub(xs + [e], ys + [e])
  {
    assert (ys + [e])[..|ys|] == ys && (xs + [e])[..|xs|] == xs;
  }

  lemma {:induction false} SubLess(a: seq<Dummy>, e: Dummy, b: seq<Dummy>, ys: seq<Dummy>)
    requires Sub(a + [e] + b, ys)
    ensures Sub(a + b, ys)
    decreases |ys|, 1
  {
    var xs := a + [e] + b;
    var m, n := |xs| - 1, |ys| - 1;
    assert ys[..n] + [ys[n]] == ys;
    if Sub(xs, ys[..n]) {
      SubLess(a, e, b, ys[..n]);
      SubMore(a + b, ys[..n], ys[n]);
    } else if b == [] {
      assert xs[..m] == a && a + b == a;
      SubMore(a, ys[..n], ys[n]);
    } else {
      SubLessInside(a, e, b, ys);
    }
  }

  lemma {:induction false} SubLessInside(a: seq<Dummy>, e: Dummy, b: seq<Dummy>, ys: seq<Dummy>)
    requires b != [] && ys != [] && Sub((a + [e] + b)[..|a| + |b|], ys[..|ys| - 1]) && b[|b| - 1] == ys[|ys| - 1]
    ensures Sub(a + b, ys)
    decreases |ys|, 0
  {
    hide Sub;
    var n := |ys| - 1;
    var c := b[..|b| - 1];
    assert (a + [e] + b)[..|a| + |b|] == a + [e] + c;
    SubLess(a, e, c, ys[..n]);
    SubMore(a + c, ys[..n], ys[n]);
    assert ys[..n] + [ys[n]] == ys && a + c + [ys[n]] == a + b;
  }

  lemma {:induction false} SubWhole(xs: seq<Dummy>, ys: seq<Dummy>)
    requires Sub(xs, ys)
    ensures |xs| <= |ys| && (|xs| == |ys| ==> xs == ys)
    decreases |ys|
  {
    if xs != [] {
      var m, n := |xs| - 1, |ys| - 1;
      if Sub(xs, ys[..n]) {
        SubWhole(xs, ys[..n]);
      } else {
        SubWhole(xs[..m], ys[..n]);
        assert xs == xs[..m] + [xs[m]] && ys == ys[..n] + [ys[n]];
      }
    }
  }

  lemma {:induction false} SubPrefix(xs: seq<Dummy>, k: nat, ys: seq<Dummy>)
    requires k <= |xs| && Sub(xs, ys)
    ensures Sub(xs[..k], ys)
    decreases |xs|
  {
    if k < |xs| {
      var m := |xs| - 1;
      assert xs == xs[..m] + [xs[m]] + [];
      SubLess(xs[..m], xs[m], [], ys);
      assert xs[..m] + [] == xs[..m] && xs[..m][..k] == xs[..k];
      SubPrefix(xs[..m], k, ys);
    } else {
      assert xs[..k] == xs;
    }
  }

  // ---------------------------------------------------------------- bars become fills and commands

  function Relabelled(xs: seq<Dummy>, k: Kind): (r: seq<Dummy>)
    ensures |r| == |xs| && forall i :: 0 <= i < |xs| ==> r[i] == Dummy(k, xs[i].symbol, xs[i].number)
  {
    seq(|xs|, i requires 0 <= i < |xs| => Dummy(k, xs[i].symbol, xs[i].number))
  }

  /** xs are the bars of ys, one each and in order, labelled k. */
  ghost predicate CopiesAll(xs: seq<Dummy>, k: Kind, ys: seq<Dummy>) {
    |xs| == |ys| && forall i :: 0 <= i < |xs| ==> xs[i] == Dummy(k, ys[i].symbol, ys[i].number)
  }

  /** xs[i] is the bar ys[at[i]] labelled k, and at is increasing. */
  ghost predicate CopiesAt(xs: seq<Dummy>, k: Kind, ys: seq<Dummy>, at: seq<nat>) {
    && |at| == |xs|
    && (forall i, j :: 0 <= i < j < |at| ==> at[i] < at[j])
    && (forall i :: 0 <= i < |xs| ==> at[i] < |ys| && xs[i] == Dummy(k, ys[at[i]].symbol, ys[at[i]].number))
  }

  /** xs are some of the bars of ys, in order, labelled k. */
  ghost predicate CopiesSome(xs: seq<Dummy>, k: Kind, ys: seq<Dummy>) {
    exists at: seq<nat> :: CopiesAt(xs, k, ys, at)
  }

  lemma {:induction false} SubCopies(xs: seq<Dummy>, k: Kind, ys: seq<Dummy>)
    requires Sub(xs, Relabelled(ys, k))
    ensures CopiesSome(xs, k, ys)
    decreases |ys|
  {
    if xs == [] {
      assert CopiesAt(xs, k, ys, []);
    } else {
      var m, n := |xs| - 1, |ys| - 1;
      assert Relabelled(ys, k)[..n] == Relabelled(ys[..n], k);
      if Sub(xs, Relabelled(ys[..n], k)) {
        SubCopies(xs, k, ys[..n]);
        var at :| CopiesAt(xs, k, ys[..n], at);
        assert CopiesAt(xs, k, ys, at);
      } else {
        SubCopies(xs[..m], k, ys[..n]);
        var at :| CopiesAt(xs[..m], k, ys[..n], at);
        assert CopiesAt(xs, k, ys, at + [n]);
      }
    }
  }

  /** A pipeline: events received, in the receiving ring, in the relaying thread's hand, and still in
      the sending ring, oldest first and all labelled k. */
  function Chain(k: Kind, seen: seq<Dummy>, ring: seq<Dummy>, hand: seq<Dummy>, sent: seq<Dummy>): seq<Dummy> {
    seen + ring + Relabelled(hand, k) + Relabelled(sent, k)
  }

  /** The pipeline holds, in order, some of the bars offered to it; the missing ones are those counted as lost. */
  ghost predicate Flow(k: Kind, chain: seq<Dummy>, offered: seq<Dummy>, lost: nat) {
    Sub(chain, Relabelled(offered, k)) && |chain| + lost == |offered|
  }

  lemma ChainReceives(k: Kind, seen: seq<Dummy>, ring: seq<Dummy>, hand: seq<Dummy>, sent: seq<Dummy>)
    requires ring != []
    ensures Chain(k, seen + [ring[0]], ring[1..], hand, sent) == Chain(k, seen, ring, hand, sent)
  {
    assert seen + [ring[0]] + ring[1..] == seen + ring;
  }

  lemma ChainGrabs(k: Kind, seen: seq<Dummy>, ring: seq<Dummy>, sent: seq<Dummy>)
    requires sent != []
    ensures Chain(k, seen, ring, [sent[0]], sent[1..]) == Chain(k, seen, ring, [], sent)
  {
    var a, b := Relabelled([sent[0]], k), Relabelled(sent[1..], k);
    assert a + b == Relabelled([], k) + Relabelled(sent, k);
    ConcatAgain(seen + ring, a, b);
    ConcatAgain(seen + ring, Relabelled([], k), Relabelled(sent, k));
  }

  lemma ConcatAgain(a: seq<Dummy>, b: seq<Dummy>, c: seq<Dummy>)
    ensures a + b + c == a + (b + c)
  {}

  lemma ChainDelivers(k: Kind, seen: seq<Dummy>, ring: seq<Dummy>, e: Dummy, sent: seq<Dummy>)
    ensures Chain(k, seen, ring + [AsKind(e, k)], [], sent) == Chain(k, seen, ring, [e], sent)
  {
    assert Relabelled([e], k) == [AsKind(e, k)] && Relabelled([], k) == [];
    assert seen + (ring + [AsKind(e, k)]) + [] == seen + ring + [AsKind(e, k)];
  }

  lemma FlowOffers(k: Kind, seen: seq<Dummy>, ring: seq<Dummy>, hand: seq<Dummy>, sent: seq<Dummy>, offered: seq<Dummy>,
                   lost: nat, e: Dummy)
    requires Flow(k, Chain(k, seen, ring, hand, sent), offered, lost)
    ensures Flow(k, Chain(k, seen, ring, hand, sent + [e]), offered + [e], lost)
    ensures Flow(k, Chain(k, seen, ring, hand, sent), offered + [e], lost + 1)
  {
    hide Sub;
    var chain := Chain(k, seen, ring, hand, sent);
    SubMore(chain, Relabelled(offered, k), AsKind(e, k));
    assert Relabelled(offered + [e], k) == Relabelled(offered, k) + [AsKind(e, k)];
    assert Chain(k, seen, ring, hand, sent + [e]) == chain + [AsKind(e, k)];
  }

  lemma FlowDrops(k: Kind, seen: seq<Dummy>, ring: seq<Dummy>, e: Dummy, sent: seq<Dummy>, offered: seq<Dummy>,
                  lost: nat)
    requires Flow(k, Chain(k, seen, ring, [e], sent), offered, lost)
    ensures Flow(k, Chain(k, seen, ring, [], sent), offered, lost + 1)
  {
    hide Sub;
    var a, b := seen + ring, Relabelled(sent, k);
    assert Chain(k, seen, ring, [e], sent) == a + [AsKind(e, k)] + b;
    assert Chain(k, seen, ring, [], sent) == a + b;
    SubLess(a, AsKind(e, k), b, Relabelled(offered, k));
  }

  function FillChain(s: System): seq<Dummy> {
    Chain(FillKind, s.history.fills, s.rings.fillIn, if s.exec.PushFill? then [s.exec.e] else [], s.rings.orders)
  }

  function CommandChain(s: System): seq<Dummy> {
    Chain(CommandKind, s.history.commands, s.rings.command, if s.route.PushCommand? then [s.route.e] else [],
      s.rings.routing)
  }

  predicate BeforeOrder(p: HotPc) { p.PushRoute? || p.PersistBar? || p.PushOrder? }

  function ButLast(xs: seq<Dummy>): seq<Dummy> { if xs == [] then [] else xs[..|xs| - 1] }

  /** Bars that thread 0 has already offered to the order ring, and to the routing ring. */
  function Ordered(s: System): seq<Dummy> {
    if BeforeOrder(s.hot) then ButLast(s.history.bars) else s.history.bars
  }

  function Routed(s: System): seq<Dummy> {
    if s.hot.PushRoute? then ButLast(s.history.bars) else s.history.bars
  }

  /** The bar thread 0 is working on is the last one it popped. */
  ghost predicate Working(s: System) {
    BeforeOrder(s.hot) ==> s.history.bars != [] && s.history.bars == ButLast(s.history.bars) + [s.hot.e]
  }

  ghost predicate FillFlow(s: System) {
    Flow(FillKind, FillChain(s), Ordered(s), s.history.lostOrders + s.history.lostFills)
  }

  ghost predicate CommandFlow(s: System) {
    Flow(CommandKind, CommandChain(s), Routed(s), s.history.lostRoutes + s.history.lostCommands)
  }

  lemma ButLastIs(xs: seq<Dummy>, e: Dummy)
    ensures ButLast(xs + [e]) == xs
  {}

  lemma FillsBar(s: System, ok: bool)
    requires Working(s) && FillFlow(s)
    ensures FillFlow(BarPhase(s, ok))
  {
    hide Flow; hide Chain; hide Fits; hide AsKind; hide Persist; hide Kept; hide InHand; hide Kept; hide InHand;
    hide ButLast;
    var h, r, hand := s.history, s.rings, if s.exec.PushFill? then [s.exec.e] else [];
    match s.hot
    case PopBar => if r.market != [] { ButLastIs(h.bars, r.market[0]); }
    case PushOrder(e) => FlowOffers(FillKind, h.fills, r.fillIn, hand, r.orders, ButLast(h.bars),
      h.lostOrders + h.lostFills, e);
    case PersistBar(e) => PersistTouches(s, 0, e, ok);
    case _ =>
  }

  lemma FillsFill(s: System, ok: bool)
    requires Working(s) && FillFlow(s)
    ensures FillFlow(FillPhase(s, ok))
  {
    hide Flow; hide Chain; hide Fits; hide AsKind; hide Persist; hide ButLast;
    var h, r, hand := s.history, s.rings, if s.exec.PushFill? then [s.exec.e] else [];
    match s.hot
    case PopFill => if r.fillIn != [] { ChainReceives(FillKind, h.fills, r.fillIn, hand, r.orders); }
    case PersistFill(e) => PersistTouches(s, 0, e, ok);
    case _ =>
  }

  lemma FillsCommand(s: System)
    requires Working(s) && FillFlow(s)
    ensures FillFlow(CommandPhase(s))
  {
    hide Flow; hide Chain; hide Fits; hide AsKind; hide Persist; hide ButLast;
  }

  lemma FillHot(s: System, ok: bool)
    requires Working(s) && FillFlow(s)
    ensures FillFlow(HotStep(s, ok))
  {
    hide BarPhase; hide FillPhase; hide CommandPhase; hide Flow; hide Chain; hide ButLast;
    FillsBar(s, ok); FillsFill(s, ok); FillsCommand(s);
  }

  lemma CommandsBar(s: System, ok: bool)
    requires Working(s) && CommandFlow(s)
    ensures CommandFlow(BarPhase(s, ok))
  {
    hide Flow; hide Chain; hide Fits; hide AsKind; hide Persist; hide ButLast;
    var h, r, hand := s.history, s.rings, if s.route.PushCommand? then [s.route.e] else [];
    match s.hot
    case PopBar => if r.market != [] { ButLastIs(h.bars, r.market[0]); }
    case PushRoute(e) => FlowOffers(CommandKind, h.commands, r.command, hand, r.routing, ButLast(h.bars),
      h.lostRoutes + h.lostCommands, e);
    case PersistBar(e) => PersistTouches(s, 0, e, ok);
    case _ =>
  }

  lemma CommandsFill(s: System, ok: bool)
    requires Working(s) && CommandFlow(s)
    ensures CommandFlow(FillPhase(s, ok))
  {
    hide Flow; hide Chain; hide Fits; hide AsKind; hide Persist; hide ButLast;
    if s.hot.PersistFill? { PersistTouches(s, 0, s.hot.e, ok); }
  }

  lemma CommandsCommand(s: System)
    requires Working(s) && CommandFlow(s)
    ensures CommandFlow(CommandPhase(s))
  {
    hide Flow; hide Chain; hide Fits; hide AsKind; hide Persist; hide ButLast;
    var h, r, hand := s.history, s.rings, if s.route.PushCommand? then [s.route.e] else [];
    if s.hot.PopCommand? && r.command != [] { ChainReceives(CommandKind, h.commands, r.command, hand, r.routing); }
  }

  lemma CommandHot(s: System, ok: bool)
    requires Working(s) && CommandFlow(s)
    ensures CommandFlow(HotStep(s, ok))
  {
    hide BarPhase; hide FillPhase; hide CommandPhase; hide Flow; hide Chain; hide ButLast;
    CommandsBar(s, ok); CommandsFill(s, ok); CommandsCommand(s);
  }

  lemma WorkingHot(s: System, ok: bool)
    requires Working(s)
    ensures Working(HotStep(s, ok))
  {
    hide Fits; hide AsKind; hide Persist; hide ButLast;
    match s.hot
    case PopBar => if s.rings.market != [] { ButLastIs(s.history.bars, s.rings.market[0]); }
    case PersistBar(e) => PersistTouches(s, 0, e, ok);
    case PersistFill(e) => PersistTouches(s, 0, e, ok);
    case _ =>
  }

  lemma FillExec(s: System, ok: bool)
    requires FillFlow(s)
    ensures FillFlow(ExecStep(s, ok))
  {
    hide Flow; hide Chain; hide Fits; hide AsKind; hide ButLast;
    var h, r := s.history, s.rings;
    match s.exec
    case PopOrder => if r.orders != [] { ChainGrabs(FillKind, h.fills, r.fillIn, r.orders); }
    case PushFill(e) =>
      ChainDelivers(FillKind, h.fills, r.fillIn, e, r.orders);
      FlowDrops(FillKind, h.fills, r.fillIn, e, r.orders, Ordered(s), h.lostOrders + h.lostFills);
    case _ =>
  }

  lemma CommandRoute(s: System, ok: bool)
    requires CommandFlow(s)
    ensures CommandFlow(RouteStep(s, ok))
  {
    hide Flow; hide Chain; hide Fits; hide AsKind; hide ButLast;
    var h, r := s.history, s.rings;
    match s.route
    case PopRoute => if r.routing != [] { ChainGrabs(CommandKind, h.commands, r.command, r.routing); }
    case PushCommand(e) =>
      ChainDelivers(CommandKind, h.commands, r.command, e, r.routing);
      FlowDrops(CommandKind, h.commands, r.command, e, r.routing, Routed(s), h.lostRoutes + h.lostCommands);
    case _ =>
  }

  // ---------------------------------------------------------------- every event is counted

  function One(b: bool): nat { if b then 1 else 0 }

  /** The counters lag behind what was popped by what thread 0 has in hand. */
  ghost predicate Counted(s: System) {
    var c, h := s.counters, s.history;
    && |h.bars| == c.bars + One(BeforeOrder(s.hot) || s.hot.LogBar? || s.hot.CountBar?)
    && |h.fills| == c.fills + One(s.hot.PersistFill? || s.hot.CountFill?)
    && |h.commands| == c.commands + One(s.hot.CountCommand?)
    && |h.bars| == h.acceptedLogs + h.lostLogs + One(BeforeOrder(s.hot) || s.hot.LogBar?)
  }

  /** Everything relayed was offered to a persist ring, except what a thread is about to offer. */
  ghost predicate Offered(s: System) {
    var h, r := s.history, s.rings;
    |h.bars| + 2 * |h.fills| + |r.fillIn| + h.lostFills + |h.commands| + |r.command| + h.lostCommands ==
      h.accepted + h.lostPersists
      + One(s.hot.PushRoute? || s.hot.PersistBar?) + One(s.hot.PersistFill?) + One(s.route.PersistRoute?)
        + One(s.exec.PersistExec?)
  }

  lemma CountedBar(s: System, ok: bool)
    requires Counted(s)
    ensures Counted(BarPhase(s, ok))
  {
    hide Fits; hide AsKind; hide Persist;
    if s.hot.PersistBar? { PersistTouches(s, 0, s.hot.e, ok); }
  }

  lemma BarOffers(s: System, ok: bool)
    ensures var t := BarPhase(s, ok);
      |t.history.bars| - t.history.accepted - t.history.lostPersists - One(t.hot.PushRoute? || t.hot.PersistBar?)
      == |s.history.bars| - s.history.accepted - s.history.lostPersists - One(s.hot.PushRoute? || s.hot.PersistBar?)
  {
    hide Fits; hide AsKind; hide Persist;
    if s.hot.PersistBar? { PersistOffers(s, 0, s.hot.e, ok); }
  }

  lemma OfferedBar(s: System, ok: bool)
    requires Offered(s)
    ensures Offered(BarPhase(s, ok))
  {
    hide BarPhase;
    BarLeaves(s, ok);
    BarOffers(s, ok);
  }

  lemma CountedFill(s: System, ok: bool)
    requires Counted(s)
    ensures Counted(FillPhase(s, ok))
  {
    hide Fits; hide AsKind; hide Persist;
    if s.hot.PersistFill? { PersistTouches(s, 0, s.hot.e, ok); }
  }

  lemma FillOffers(s: System, ok: bool)
    ensures var t := FillPhase(s, ok);
      2 * |t.history.fills| + |t.rings.fillIn| - t.history.accepted - t.history.lostPersists - One(t.hot.PersistFill?)
      == 2 * |s.history.fills| + |s.rings.fillIn| - s.history.accepted - s.history.lostPersists
        - One(s.hot.PersistFill?)
  {
    hide Fits; hide AsKind; hide Persist;
    if s.hot.PersistFill? { PersistOffers(s, 0, s.hot.e, ok); }
  }

  lemma OfferedFill(s: System, ok: bool)
    requires Offered(s)
    ensures Offered(FillPhase(s, ok))
  {
    hide FillPhase;
    FillLeaves(s, ok);
    FillOffers(s, ok);
  }

  lemma CountedCommand(s: System)
    requires Counted(s) && Offered(s)
    ensures Counted(CommandPhase(s)) && Offered(CommandPhase(s))
  {}

  lemma CountedHot(s: System, ok: bool)
    requires Counted(s) && Offered(s)
    ensures Counted(HotStep(s, ok)) && Offered(HotStep(s, ok))
  {
    hide BarPhase; hide FillPhase; hide CommandPhase;
    CountedBar(s, ok); CountedFill(s, ok); CountedCommand(s);
    OfferedBar(s, ok); OfferedFill(s, ok);
  }

  lemma PersistOffers(s: System, thread: nat, e: Dummy, ok: bool)
    ensures var t := Persist(s, thread, e, ok);
      t.history.accepted + t.history.lostPersists == s.history.accepted + s.history.lostPersists + 1
    ensures var t := Persist(s, thread, e, ok);
      && t.(rings := s.rings, history := s.history) == s
      && t.rings.(keep0 := s.rings.keep0, keep1 := s.rings.keep1, keep3 := s.rings.keep3) == s.rings
      && t.history.(accepted := s.history.accepted, lostPersists := s.history.lostPersists) == s.history
  {
    PersistTouches(s, thread, e, ok);
    hide Fits; hide AsKind;
  }

  lemma OfferedRoute(s: System, ok: bool)
    requires Offered(s)
    ensures Offered(RouteStep(s, ok))
  {
    hide RouteStep;
    RouteLeaves(s, ok);
    RouteOffers(s, ok);
  }

  lemma RouteOffers(s: System, ok: bool)
    ensures var t := RouteStep(s, ok);
      |t.rings.command| + t.history.lostCommands - t.history.accepted - t.history.lostPersists
        - One(t.route.PersistRoute?)
      == |s.rings.command| + s.history.lostCommands - s.history.accepted - s.history.lostPersists
        - One(s.route.PersistRoute?)
  {
    hide Fits; hide AsKind; hide Persist;
    if s.route.PersistRoute? { PersistOffers(s, 1, s.route.e, ok); }
  }

  lemma OfferedExec(s: System, ok: bool)
    requires Offered(s)
    ensures Offered(ExecStep(s, ok))
  {
    hide ExecStep;
    ExecLeaves(s, ok);
    ExecOffers(s, ok);
  }

  lemma ExecOffers(s: System, ok: bool)
    ensures var t := ExecStep(s, ok);
      |t.rings.fillIn| + t.history.lostFills - t.history.accepted - t.history.lostPersists - One(t.exec.PersistExec?)
      == |s.rings.fillIn| + s.history.lostFills - s.history.accepted - s.history.lostPersists - One(s.exec.PersistExec?)
  {
    hide Fits; hide AsKind; hide Persist;
    if s.exec.PersistExec? { PersistOffers(s, 3, s.exec.e, ok); }
  }

  ghost predicate Coherent(s: System) {
    Phased(s) && Accounted(s) && Working(s) && FillFlow(s) && CommandFlow(s) && Counted(s) && Offered(s)
  }

  /** Thread 1 touches neither counters nor the fill pipeline; thread 3 neither counters nor the commands. */
  lemma RouteLeaves(s: System, ok: bool)
    ensures var t := RouteStep(s, ok);
      && t == s.(route := t.route, rings := t.rings, history := t.history)
      && t.rings.fillIn == s.rings.fillIn && t.rings.orders == s.rings.orders
      && t.history == s.history.(accepted := t.history.accepted, lostPersists := t.history.lostPersists,
        lostCommands := t.history.lostCommands)
  {
    hide Fits; hide AsKind; hide Persist;
    if s.route.PersistRoute? { PersistTouches(s, 1, s.route.e, ok); }
  }

  lemma ExecLeaves(s: System, ok: bool)
    ensures var t := ExecStep(s, ok);
      && t == s.(exec := t.exec, rings := t.rings, history := t.history)
      && t.rings.command == s.rings.command && t.rings.routing == s.rings.routing
      && t.history == s.history.(accepted := t.history.accepted, lostPersists := t.history.lostPersists,
        lostFills := t.history.lostFills)
  {
    hide Fits; hide AsKind; hide Persist;
    if s.exec.PersistExec? { PersistTouches(s, 3, s.exec.e, ok); }
  }

  lemma CoherentRoute(s: System, ok: bool)
    requires Coherent(s)
    ensures Coherent(RouteStep(s, ok))
  {
    hide Phased; hide Accounted; hide Offered; hide Chain; hide Flow; hide RouteStep; hide ButLast; hide One;
    PhasedRoute(s, ok); AccountedRoute(s, ok); CommandRoute(s, ok); OfferedRoute(s, ok);
    RouteLeaves(s, ok);
  }

  lemma CoherentExec(s: System, ok: bool)
    requires Coherent(s)
    ensures Coherent(ExecStep(s, ok))
  {
    hide Phased; hide Accounted; hide Offered; hide Chain; hide Flow; hide ExecStep; hide ButLast; hide One;
    PhasedExec(s, ok); AccountedExec(s, ok); FillExec(s, ok); OfferedExec(s, ok);
    ExecLeaves(s, ok);
  }

  /** What the keeper, the api thread, the controller and the outside leave alone. */
  lemma OthersAlone(s: System, a: Action)
    requires Phased(s) && !a.Hot? && !a.Router? && !a.Executor?
    ensures var t := Step(s, a);
      && t.history == s.history
        && t.counters.(persisted := s.counters.persisted, logged := s.counters.logged) == s.counters
      && t.rings.(market := s.rings.market, keep0 := s.rings.keep0, keep1 := s.rings.keep1, keep3 := s.rings.keep3,
        log := s.rings.log) == s.rings
      && (t.hot == s.hot || (s.hot.HotOff? && t.hot.HotCheck?))
      && (t.route == s.route || (s.route.RouteOff? && t.route.RouteCheck?))
      && (t.exec == s.exec || (s.exec.ExecOff? && t.exec.ExecCheck?))
  {
    hide KeptBelow; hide KeepRing; hide Fits;
    if a.Keeper? && s.keeper.Drain? { PopAlone(s.rings, s.keeper.ring); }
    if a.Keeper? && s.keeper.Take? { PopAlone(s.rings, s.keeper.ring); }
  }

  lemma PopAlone(r: Rings, i: nat)
    ensures KeepRing(r, i) != [] ==>
      PopKept(r, i).(keep0 := r.keep0, keep1 := r.keep1, keep3 := r.keep3, log := r.log) == r
  {}

  lemma CoherentStep(s: System, a: Action)
    requires Coherent(s)
    ensures Coherent(Step(s, a))
  {
    hide Phased; hide Accounted; hide Flow; hide Chain; hide HotStep; hide RouteStep; hide ExecStep; hide ButLast;
    PhasedStep(s, a);
    AccountedStep(s, a);
    match a
    case Hot(ok) => WorkingHot(s, ok); FillHot(s, ok); CommandHot(s, ok); CountedHot(s, ok);
    case Router(ok) => CoherentRoute(s, ok);
    case Executor(ok) => CoherentExec(s, ok);
    case _ => OthersAlone(s, a); CoherentOthers(s, Step(s, a));
  }

  lemma CoherentOthers(s: System, t: System)
    requires Coherent(s) && Phased(t) && Accounted(t)
    requires t.history == s.history
      && t.counters.(persisted := s.counters.persisted, logged := s.counters.logged) == s.counters
    requires t.rings.(market := s.rings.market, keep0 := s.rings.keep0, keep1 := s.rings.keep1, keep3 := s.rings.keep3,
      log := s.rings.log) == s.rings
    requires t.hot == s.hot || (s.hot.HotOff? && t.hot.HotCheck?)
    requires t.route == s.route || (s.route.RouteOff? && t.route.RouteCheck?)
    requires t.exec == s.exec || (s.exec.ExecOff? && t.exec.ExecCheck?)
    ensures Coherent(t)
  {
    hide Phased; hide Accounted; hide Flow; hide Chain; hide ButLast;
  }

  lemma InitPhased()
    ensures Phased(INIT) && Accounted(INIT)
  {}

  lemma EmptyFlow(k: Kind)
    ensures Flow(k, Chain(k, [], [], [], []), [], 0)
  {
    assert Chain(k, [], [], [], []) == [];
  }

  lemma InitFlows()
    ensures FillFlow(INIT) && CommandFlow(INIT)
  {
    hide Flow; hide Chain;
    EmptyFlow(FillKind);
    EmptyFlow(CommandKind);
  }

  lemma InitCounts()
    ensures Working(INIT) && Counted(INIT) && Offered(INIT)
  {}

  lemma InitCoherent()
    ensures Coherent(INIT)
  {
    hide Phased; hide Accounted; hide Working; hide FillFlow; hide CommandFlow; hide Counted; hide Offered;
    InitPhased();
    InitFlows();
    InitCounts();
  }

  lemma {:induction false} Reachable(actions: seq<Action>)
    ensures Coherent(Run(INIT, actions))
  {
    hide Step; hide Coherent;
    if actions == [] {
      InitCoherent();
    } else {
      Reachable(actions[..|actions| - 1]);
      CoherentStep(Run(INIT, actions[..|actions| - 1]), actions[|actions| - 1]);
    }
  }

  /** Shutdown loses nothing that was accepted: over every interleaving of the five loops, every
      refusal and any number of start and stop cycles, whenever stop has returned the persist rings and
      the log ring are empty, and the counters equal the numbers of accepted pushes. */
  lemma ShutdownLosesNothing(actions: seq<Action>)
    requires Run(INIT, actions).control.Idle?
    ensures var s := Run(INIT, actions);
      && s.rings.keep0 == [] && s.rings.keep1 == [] && s.rings.keep3 == [] && s.rings.log == []
      && s.counters.persisted == s.history.accepted && s.counters.logged == s.history.acceptedLogs
  {
    hide FillFlow; hide CommandFlow; hide Counted; hide Offered; hide Working;
    Reachable(actions);
    var r := Run(INIT, actions).rings;
    assert KeepRing(r, 0) == [] && KeepRing(r, 1) == [] && KeepRing(r, 2) == [] && KeepRing(r, 3) == [];
  }

  /** At every moment, the fills and the commands thread 0 has received are, in order, some of the bars
      it has processed. */
  lemma FillsFollowBars(actions: seq<Action>)
    ensures var h := Run(INIT, actions).history;
      CopiesSome(h.fills, FillKind, h.bars) && CopiesSome(h.commands, CommandKind, h.bars)
  {
    hide Phased; hide Accounted; hide Counted; hide Offered;
    Reachable(actions);
    var s := Run(INIT, actions);
    SubPrefix(FillChain(s), |s.history.fills|, Relabelled(Ordered(s), FillKind));
    SubPrefix(CommandChain(s), |s.history.commands|, Relabelled(Routed(s), CommandKind));
    assert FillChain(s)[..|s.history.fills|] == s.history.fills;
    assert CommandChain(s)[..|s.history.commands|] == s.history.commands;
    WithLast(s.history.fills, s.history.bars, FillKind);
    WithLast(s.history.commands, s.history.bars, CommandKind);
    SubCopies(s.history.fills, FillKind, s.history.bars);
    SubCopies(s.history.commands, CommandKind, s.history.bars);
  }

  lemma WithLast(xs: seq<Dummy>, bars: seq<Dummy>, k: Kind)
    ensures Sub(xs, Relabelled(ButLast(bars), k)) ==> Sub(xs, Relabelled(bars, k))
  {
    if bars != [] && Sub(xs, Relabelled(ButLast(bars), k)) {
      var e := bars[|bars| - 1];
      SubMore(xs, Relabelled(ButLast(bars), k), AsKind(e, k));
      assert Relabelled(bars, k) == Relabelled(ButLast(bars), k) + [AsKind(e, k)];
    }
  }

  /** No bar, order, route, fill or command is under way. */
  predicate Quiet(s: System) {
    && s.rings.market == [] && s.rings.routing == [] && s.rings.orders == [] && s.rings.fillIn == []
      && s.rings.command == []
    && (s.hot.HotOff? || s.hot.HotCheck? || s.hot.PopBar? || s.hot.PopFill? || s.hot.PopCommand?)
    && (s.route.RouteOff? || s.route.RouteCheck? || s.route.PopRoute?)
    && (s.exec.ExecOff? || s.exec.ExecCheck? || s.exec.PopOrder?)
  }

  lemma QuietStep(s: System, a: Action)
    requires Coherent(s) && Quiet(s) && !a.Outside?
    ensures Quiet(Step(s, a)) && Step(s, a).history == s.history
  {
    hide Accounted; hide FillFlow; hide CommandFlow; hide Working; hide Counted; hide Offered;
    match a
    case Hot(ok) =>
    case Router(ok) =>
    case Executor(ok) =>
    case _ => OthersAlone(s, a);
  }

  lemma {:induction false} QuietStays(pre: seq<Action>, post: seq<Action>)
    requires Quiet(Run(INIT, pre)) && forall i :: 0 <= i < |post| ==> !post[i].Outside?
    ensures Quiet(Run(INIT, pre + post)) && Run(INIT, pre + post).history == Run(INIT, pre).history
  {
    hide Coherent; hide Step; hide Quiet;
    if post == [] {
      assert pre + post == pre;
    } else {
      var n := |post| - 1;
      QuietStays(pre, post[..n]);
      Reachable(pre + post[..n]);
      QuietStep(Run(INIT, pre + post[..n]), post[n]);
      assert (pre + post)[..|pre + post| - 1] == pre + post[..n];
    }
  }

  /** Once the pipelines are quiet and no more bars are fed, however start and stop are interleaved,
      when stop has returned the counters account for every bar and every refused push; with nothing
      refused, fills, commands and logs equal bars, in the same order, and four events were persisted
      for each bar. */
  lemma QuietThenStop(pre: seq<Action>, post: seq<Action>)
    requires Quiet(Run(INIT, pre)) && (forall i :: 0 <= i < |post| ==> !post[i].Outside?)
    requires Run(INIT, pre + post).control.Idle?
    ensures var s := Run(INIT, pre + post);
      var (h, c) := (s.history, s.counters);
      && c.bars == |h.bars| && c.fills == |h.fills| && c.commands == |h.commands|
      && c.fills == c.bars - h.lostOrders - h.lostFills
      && c.commands == c.bars - h.lostRoutes - h.lostCommands
      && c.persisted == 4 * c.bars - 2 * h.lostOrders - h.lostFills - h.lostRoutes - h.lostPersists
      && c.logged == c.bars - h.lostLogs
      && (h.lostOrders == h.lostFills == 0 ==> CopiesAll(h.fills, FillKind, h.bars))
      && (h.lostRoutes == h.lostCommands == 0 ==> CopiesAll(h.commands, CommandKind, h.bars))
  {
    hide Sub;
    QuietStays(pre, post);
    Reachable(pre + post);
    ShutdownLosesNothing(pre + post);
    QuietCounts(Run(INIT, pre + post));
  }

  lemma QuietCounts(s: System)
    requires Coherent(s) && Quiet(s) && s.control.Idle?
    ensures var h, c := s.history, s.counters;
      && c.bars == |h.bars| && c.fills == |h.fills| && c.commands == |h.commands|
      && c.fills == c.bars - h.lostOrders - h.lostFills
      && c.commands == c.bars - h.lostRoutes - h.lostCommands
      && h.accepted == 4 * c.bars - 2 * h.lostOrders - h.lostFills - h.lostRoutes - h.lostPersists
      && h.acceptedLogs == c.bars - h.lostLogs
      && (h.lostOrders == h.lostFills == 0 ==> CopiesAll(h.fills, FillKind, h.bars))
      && (h.lostRoutes == h.lostCommands == 0 ==> CopiesAll(h.commands, CommandKind, h.bars))
  {
    hide Sub; hide Accounted; hide KeptBelow;
    var h := s.history;
    assert FillChain(s) == h.fills && CommandChain(s) == h.commands;
    SubWhole(h.fills, Relabelled(h.bars, FillKind));
    SubWhole(h.commands, Relabelled(h.bars, CommandKind));
  }

  // ---------------------------------------------------------------- stop can always finish

  function HotLeft(p: HotPc): nat {
    match p
    case HotOff => 0 case HotCheck => 1 case CountCommand => 2 case PopCommand => 3
    case CountFill => 4 case PersistFill(_) => 5 case PopFill => 6
    case CountBar => 7 case LogBar => 8 case PushOrder(_) => 9 case PersistBar(_) => 10 case PushRoute(_) => 11
      case PopBar => 12
  }

  function RouteLeft(p: RoutePc): nat {
    match p case RouteOff => 0 case RouteCheck => 1 case PersistRoute(_) => 2 case PushCommand(_) => 3
      case PopRoute => 4
  }

  function ExecLeft(p: ExecPc): nat {
    match p case ExecOff => 0 case ExecCheck => 1 case PersistExec(_) => 2 case PushFill(_) => 3 case PopOrder => 4
  }

  function Waiting(r: Rings): nat { |r.keep0| + |r.keep1| + |r.keep3| + |r.log| }

  function KeeperLeft(p: KeeperPc, r: Rings): nat {
    match p
    case KeeperOff => 0
    case Drain(i) => 1 + (if i < 4 then 4 - i else 0) + 2 * Waiting(r)
    case DrainCount(i) => 2 + (if i < 4 then 4 - i else 0) + 2 * Waiting(r)
    case KeeperCheck => 6 + 2 * Waiting(r)
    case Take(i) => 7 + (if i < 4 then 4 - i else 0) + 2 * Waiting(r)
    case Count(i) => 7 + (if i < 4 then 4 - i else 0) + 2 * Waiting(r)
  }

  /** Who moves in a step; World feeds bars and never owes anybody a move. */
  datatype Mover = HotThread | RouterThread | KeeperThread | ExecutorThread | ApiThread | Controller | World

  function MoverOf(a: Action): Mover {
    match a
    case Hot(_) => HotThread
    case Router(_) => RouterThread
    case Keeper => KeeperThread
    case Executor(_) => ExecutorThread
    case Api => ApiThread
    case Control(_) => Controller
    case Outside(_, _) => World
  }

  /** Who must move for stop to get on: the thread being joined, else the controller. */
  function Awaited(s: System): Action
    requires s.control.Stopping?
  {
    var n := s.control.next;
    if n == 0 && !s.hot.HotOff? then Hot(false)
    else if n == 1 && !s.route.RouteOff? then Router(false)
    else if n == 2 && !s.exec.ExecOff? then Executor(false)
    else if n == 3 && !s.api.ApiOff? then Api
    else if n >= 5 && !s.keeper.KeeperOff? then Keeper
    else Control(false)
  }

  /** What the awaited mover still has to do before the controller can go on. */
  function AwaitedLeft(s: System): nat
    requires s.control.Stopping?
  {
    var n := s.control.next;
    if n == 0 then HotLeft(s.hot)
    else if n == 1 then RouteLeft(s.route)
    else if n == 2 then ExecLeft(s.exec)
    else if n == 3 then One(s.api.ApiCheck?)
    else if n >= 5 then KeeperLeft(s.keeper, s.rings)
    else 0
  }

  /** The awaited mover gets on, whichever pushes are accepted. */
  lemma AwaitedMoves(s: System, a: Action)
    requires s.control.Stopping? && Phased(s) && Accounted(s) && MoverOf(a) == MoverOf(Awaited(s))
    ensures s.control.next <= 5
    ensures var t := Step(s, a);
      t.control.Idle? || (t.control.Stopping? && s.control.next <= t.control.next <= 5
        && (t.control.next == s.control.next ==> AwaitedLeft(t) < AwaitedLeft(s)))
  {
    hide KeptBelow; hide AsKind; hide KeepRing; hide PopKept; hide Fits; hide Persist; hide KeeperLeft; hide HotLeft;
    match a
    case Hot(ok) => HotMoves(s, ok); hide HotStep;
    case Router(ok) => RouteLeaves(s, ok);
    case Executor(ok) => ExecLeaves(s, ok);
    case Keeper => KeeperAdvances(s); hide KeeperStep;
    case _ =>
  }

  lemma HotMoves(s: System, ok: bool)
    requires s.stopWorkers && !s.hot.HotOff?
    ensures var t := HotStep(s, ok);
      && HotLeft(t.hot) < HotLeft(s.hot)
      && t == s.(hot := t.hot, rings := t.rings, counters := t.counters, history := t.history)
  {
    HotTouches(s, ok);
    hide AsKind; hide Fits; hide Persist;
  }

  lemma KeeperAdvances(s: System)
    requires s.stopPersist && !s.keeper.KeeperOff? && (s.keeper.Count? || s.keeper.DrainCount? ==> s.keeper.ring < 4)
    ensures var t := KeeperStep(s); KeeperLeft(t.keeper, t.rings) < KeeperLeft(s.keeper, s.rings)
    ensures var t := KeeperStep(s); t == s.(keeper := t.keeper, rings := t.rings, counters := t.counters)
  {
    if (s.keeper.Take? || s.keeper.Drain?) && s.keeper.ring < 4 && KeepRing(s.rings, s.keeper.ring) != [] {
      assert Waiting(PopKept(s.rings, s.keeper.ring)) == Waiting(s.rings) - 1;
    }
  }

  lemma {:induction false} RunThen(s: System, a: Action, rest: seq<Action>)
    ensures Run(s, [a] + rest) == Run(Step(s, a), rest)
  {
    hide Step;
    if rest == [] {
      assert [a] + rest == [a] && [a][..0] == [];
      assert Run(s, []) == s;
    } else {
      var n := |rest| - 1;
      RunThen(s, a, rest[..n]);
      assert ([a] + rest)[..n + 1] == [a] + rest[..n];
    }
  }

  /** Shutdown cannot deadlock: from every reachable state in which stop was called, some schedule of
      the threads, even one that refuses every push, lets it return. */
  lemma {:induction false} StopCanFinish(s: System) returns (rest: seq<Action>)
    requires s.control.Stopping? && Coherent(s)
    ensures Run(s, rest).control.Idle?
    ensures forall i :: 0 <= i < |rest| ==> !rest[i].Outside? && rest[i] != Control(true)
    decreases 6 - s.control.next, AwaitedLeft(s)
  {
    hide Phased; hide Accounted; hide FillFlow; hide CommandFlow; hide Working; hide Counted; hide Offered; hide Step;
    hide AwaitedLeft;
    var a := Awaited(s);
    AwaitedMoves(s, a);
    CoherentStep(s, a);
    var t := Step(s, a);
    if t.control.Idle? {
      rest := [];
    } else {
      rest := StopCanFinish(t);
    }
    assert Run(t, rest).control.Idle?;
    RunThen(s, a, rest);
    rest := [a] + rest;
  }

  // ---------------------------------------------------------------- every fair schedule stops

  ghost predicate MovesAgain(f: nat -> Action, m: Mover, n: nat) {
    exists k :: k >= n && MoverOf(f(k)) == m
  }

  /** Every thread and the caller of stop move again and again; which pushes are accepted is left open. */
  ghost predicate Fair(f: nat -> Action) {
    forall m: Mover, n: nat :: m != World ==> MovesAgain(f, m, n)
  }

  function Prefix(f: nat -> Action, n: nat): (actions: seq<Action>)
    ensures |actions| == n && forall i :: 0 <= i < n ==> actions[i] == f(i)
  {
    seq(n, i requires 0 <= i < n => f(i))
  }

  /** Nobody else changes what is awaited. */
  lemma OthersLeave(s: System, a: Action)
    requires s.control.Stopping? && Phased(s) && MoverOf(a) != MoverOf(Awaited(s))
    ensures var t := Step(s, a);
      t.control == s.control && AwaitedLeft(t) == AwaitedLeft(s) && MoverOf(Awaited(t)) == MoverOf(Awaited(s))
  {
    hide KeptBelow; hide AsKind; hide KeepRing; hide PopKept; hide Fits;
    match a
    case Hot(ok) => HotTouches(s, ok); hide HotStep;
    case Router(ok) => RouteLeaves(s, ok); hide Persist;
    case Executor(ok) => ExecLeaves(s, ok); hide Persist;
    case _ =>
  }

  lemma RunNext(actions: seq<Action>, f: nat -> Action, k: nat)
    ensures Run(INIT, actions + Prefix(f, k + 1)) == Step(Run(INIT, actions + Prefix(f, k)), f(k))
  {
    hide Step;
    var more := actions + Prefix(f, k + 1);
    assert more[..|more| - 1] == actions + Prefix(f, k);
  }

  /** From position k on; the awaited mover moves at j. */
  lemma {:induction false} StopsFrom(actions: seq<Action>, f: nat -> Action, k: nat, j: nat) returns (n: nat)
    requires Fair(f) && k <= j
    requires var s := Run(INIT, actions + Prefix(f, k)); s.control.Stopping? && MoverOf(f(j)) == MoverOf(Awaited(s))
    ensures Run(INIT, actions + Prefix(f, n)).control.Idle?
    decreases 6 - Run(INIT, actions + Prefix(f, k)).control.next, AwaitedLeft(Run(INIT, actions + Prefix(f, k))), j - k
  {
    hide Run; hide Step; hide Awaited; hide AwaitedLeft; hide Fair; hide MoverOf;
    hide FillFlow; hide CommandFlow; hide Working; hide Counted; hide Offered; hide Accounted;
    var s, t := Run(INIT, actions + Prefix(f, k)), Run(INIT, actions + Prefix(f, k + 1));
    Reachable(actions + Prefix(f, k));
    RunNext(actions, f, k);
    StopBound(s);
    if MoverOf(f(k)) == MoverOf(Awaited(s)) {
      AwaitedMoves(s, f(k));
      if t.control.Idle? {
        n := k + 1;
      } else {
        Reachable(actions + Prefix(f, k + 1));
        StopBound(t);
        var i := NextMove(f, t, k + 1);
        n := StopsFrom(actions, f, k + 1, i);
      }
    } else {
      OthersLeave(s, f(k));
      n := StopsFrom(actions, f, k + 1, j);
    }
  }

  lemma StopBound(s: System)
    requires Phased(s)
    ensures s.control.Stopping? ==> s.control.next <= 5
  {
    hide KeptBelow;
  }

  lemma NextMove(f: nat -> Action, s: System, k: nat) returns (j: nat)
    requires Fair(f) && s.control.Stopping?
    ensures j >= k && MoverOf(f(j)) == MoverOf(Awaited(s))
  {
    var m := MoverOf(Awaited(s));
    assert MovesAgain(f, m, k);
    j :| j >= k && MoverOf(f(j)) == m;
  }

  /** Shutdown is live: from every reachable state in which stop was called, under every fair schedule, with
      any pushes refused and any bars still fed, stop returns. */
  lemma EveryFairScheduleStops(actions: seq<Action>, f: nat -> Action)
    requires Run(INIT, actions).control.Stopping? && Fair(f)
    ensures exists n :: Run(INIT, actions + Prefix(f, n)).control.Idle?
  {
    hide Run; hide Fair; hide Awaited; hide MoverOf;
    assert actions + Prefix(f, 0) == actions;
    var j := NextMove(f, Run(INIT, actions), 0);
    var n := StopsFrom(actions, f, 0, j);
  }
}
