/** The runtime makes progress: without new bars it becomes quiet under every fair schedule, and few bars
    are handled without a single refused push. */
module Phase0Progress {
  import opened Phase0

  // ---------------------------------------------------------------- threads that were started stay on

  /** Which loops start has already entered and stop has not asked to leave. */
  predicate Alive(s: System) {
    match s.control
    case Starting(n) => (n >= 2 ==> !s.hot.HotOff?) && (n >= 3 ==> !s.route.RouteOff?) && (n >= 5 ==> !s.exec.ExecOff?)
    case Running => !s.hot.HotOff? && !s.route.RouteOff? && !s.exec.ExecOff?
    case _ => true
  }

  lemma AliveStep(s: System, a: Action)
    requires Phased(s) && Alive(s)
    ensures Alive(Step(s, a))
  {
    hide KeptBelow; hide AsKind; hide KeepRing; hide PopKept; hide Fits;
    match a
    case Hot(ok) => HotTouches(s, ok); hide HotStep;
    case Router(ok) => RouteLeaves(s, ok); hide Persist;
    case Executor(ok) => ExecLeaves(s, ok); hide Persist;
    case _ =>
  }

  lemma {:induction false} AlwaysAlive(actions: seq<Action>)
    ensures Alive(Run(INIT, actions))
  {
    hide Step; hide Alive; hide Phased; hide FillFlow; hide CommandFlow; hide Working; hide Counted; hide Offered;
    hide Accounted;
    if actions == [] {
      InitAlive();
    } else {
      var n := |actions| - 1;
      AlwaysAlive(actions[..n]);
      Reachable(actions[..n]);
      AliveStep(Run(INIT, actions[..n]), actions[n]);
    }
  }

  lemma InitAlive()
    ensures Alive(INIT)
  {}

  // ---------------------------------------------------------------- work left

  function HotWork(p: HotPc): nat {
    match p
    case PushRoute(_) => 16 case PersistBar(_) => 10 case PushOrder(_) => 9 case LogBar => 2 case CountBar => 1
    case PersistFill(_) => 2 case CountFill => 1 case CountCommand => 1
    case _ => 0
  }

  function RouteWork(p: RoutePc): nat { match p case PushCommand(_) => 4 case PersistRoute(_) => 1 case _ => 0 }

  function ExecWork(p: ExecPc): nat { match p case PushFill(_) => 5 case PersistExec(_) => 1 case _ => 0 }

  /** What is under way, each item weighted above all it still gives rise to. */
  function Work(s: System): nat {
    17 * |s.rings.market| + 5 * |s.rings.routing| + 6 * |s.rings.orders| + 3 * |s.rings.fillIn| + 2 * |s.rings.command|
    + HotWork(s.hot) + RouteWork(s.route) + ExecWork(s.exec)
  }

  /** A thread that has something to do; World if none has. */
  function Owing(s: System): Mover {
    if s.rings.market != [] || s.rings.fillIn != [] || s.rings.command != [] || HotWork(s.hot) > 0 then HotThread
    else if s.rings.routing != [] || RouteWork(s.route) > 0 then RouterThread
    else if s.rings.orders != [] || ExecWork(s.exec) > 0 then ExecutorThread
    else World
  }

  /** Moves of thread 0 until it finds one of its rings filled. */
  function HotAway(p: HotPc, bar: bool, fill: bool, command: bool): nat {
    match p
    case HotCheck => if bar then 2 else if fill then 3 else 4
    case PopBar => if bar then 1 else if fill then 2 else 3
    case PopFill => if fill then 1 else if command then 2 else 4
    case PopCommand => if command then 1 else if bar then 3 else 4
    case _ => 0
  }

  function Away(s: System): nat {
    match Owing(s)
    case HotThread =>
      if HotWork(s.hot) > 0 then 0
      else HotAway(s.hot, s.rings.market != [], s.rings.fillIn != [], s.rings.command != [])
    case RouterThread => if s.route.RouteCheck? then 1 else 0
    case ExecutorThread => if s.exec.ExecCheck? then 1 else 0
    case _ => 0
  }

  lemma QuietIsNoWork(s: System)
    ensures Quiet(s) <==> Owing(s) == World
  {}

  /** Nearer: less work, or the same thread is as many moves closer to its next item. */
  predicate Nearer(s: System, t: System) {
    Work(t) < Work(s) || (Work(t) == Work(s) && Owing(t) == Owing(s) && Away(t) < Away(s))
  }

  lemma BusyBar(s: System, ok: bool)
    requires HotWork(s.hot) > 0 && !s.hot.PersistFill? && !s.hot.CountFill? && !s.hot.CountCommand?
    ensures Work(BarPhase(s, ok)) < Work(s)
  {
    hide Fits; hide AsKind; hide Persist; hide RouteWork; hide ExecWork;
    if s.hot.PersistBar? { PersistTouches(s, 0, s.hot.e, ok); }
  }

  lemma BusyFill(s: System, ok: bool)
    requires s.hot.PersistFill? || s.hot.CountFill?
    ensures Work(FillPhase(s, ok)) < Work(s)
  {
    hide Fits; hide AsKind; hide Persist; hide RouteWork; hide ExecWork;
    if s.hot.PersistFill? { PersistTouches(s, 0, s.hot.e, ok); }
  }

  lemma BusyHot(s: System, ok: bool)
    requires HotWork(s.hot) > 0
    ensures Work(HotStep(s, ok)) < Work(s)
  {
    hide BarPhase; hide FillPhase; hide RouteWork; hide ExecWork; hide Work;
    match s.hot
    case PersistFill(_) => BusyFill(s, ok);
    case CountFill => BusyFill(s, ok);
    case CountCommand => BusyCommand(s);
    case _ => BusyBar(s, ok);
  }

  lemma BusyCommand(s: System)
    requires s.hot.CountCommand?
    ensures Work(CommandPhase(s)) < Work(s)
  {
    hide RouteWork; hide ExecWork;
  }

  predicate NoNews(s: System) { s.rings.market == [] && s.rings.fillIn == [] && s.rings.command == [] }

  function HotDistance(s: System): nat {
    HotAway(s.hot, s.rings.market != [], s.rings.fillIn != [], s.rings.command != [])
  }

  /** Thread 0 went on to its next ring and changed nothing else. */
  predicate WentOn(s: System, t: System) {
    t == s.(hot := t.hot) && HotWork(t.hot) == 0 && (NoNews(s) || HotDistance(t) < HotDistance(s))
  }

  lemma LooksForBar(s: System, ok: bool)
    requires s.hot.PopBar?
    ensures Work(BarPhase(s, ok)) < Work(s) || WentOn(s, BarPhase(s, ok))
  {
    hide RouteWork; hide ExecWork;
  }

  lemma LooksForFill(s: System, ok: bool)
    requires s.hot.PopFill?
    ensures Work(FillPhase(s, ok)) < Work(s) || WentOn(s, FillPhase(s, ok))
  {
    hide RouteWork; hide ExecWork;
  }

  lemma LooksForCommand(s: System)
    requires s.hot.PopCommand?
    ensures Work(CommandPhase(s)) < Work(s) || WentOn(s, CommandPhase(s))
  {
    hide RouteWork; hide ExecWork;
  }

  /** A look into a ring either takes an item or moves on to the next ring. */
  lemma HotLooks(s: System, ok: bool)
    requires !s.stopWorkers && !s.hot.HotOff? && HotWork(s.hot) == 0
    ensures Work(HotStep(s, ok)) < Work(s) || WentOn(s, HotStep(s, ok))
  {
    hide BarPhase; hide FillPhase; hide CommandPhase; hide Work;
    match s.hot
    case HotCheck =>
    case PopBar => LooksForBar(s, ok); hide WentOn;
    case PopFill => LooksForFill(s, ok); hide WentOn;
    case PopCommand => LooksForCommand(s); hide WentOn;
  }

  lemma WentOnWork(s: System, t: System)
    requires WentOn(s, t) && HotWork(s.hot) == 0
    ensures Work(t) == Work(s)
  {
    hide HotWork; hide RouteWork; hide ExecWork; hide HotDistance;
  }

  lemma HotNearer(s: System, ok: bool)
    requires !s.stopWorkers && !s.hot.HotOff? && Owing(s) == HotThread
    ensures Nearer(s, HotStep(s, ok))
  {
    hide HotStep; hide HotWork; hide HotAway; hide Work;
    if HotWork(s.hot) > 0 {
      BusyHot(s, ok);
    } else {
      HotLooks(s, ok);
      if WentOn(s, HotStep(s, ok)) { WentOnWork(s, HotStep(s, ok)); }
    }
  }

  lemma RouterNearer(s: System, ok: bool)
    requires !s.stopWorkers && !s.route.RouteOff? && Owing(s) == RouterThread
    ensures Nearer(s, RouteStep(s, ok))
  {
    hide Fits; hide AsKind; hide Persist; hide HotWork; hide ExecWork; hide HotAway;
    if s.route.PersistRoute? { PersistTouches(s, 1, s.route.e, ok); }
  }

  lemma ExecutorNearer(s: System, ok: bool)
    requires !s.stopWorkers && !s.exec.ExecOff? && Owing(s) == ExecutorThread
    ensures Nearer(s, ExecStep(s, ok))
  {
    hide Fits; hide AsKind; hide Persist; hide HotWork; hide RouteWork; hide HotAway;
    if s.exec.PersistExec? { PersistTouches(s, 3, s.exec.e, ok); }
  }

  /** A move of the owing thread lowers the work, or brings it nearer to its next item. */
  lemma OwingMoves(s: System, a: Action)
    requires s.control.Running? && Phased(s) && Alive(s) && Owing(s) != World && MoverOf(a) == Owing(s)
    ensures Step(s, a).control.Running? && Nearer(s, Step(s, a))
  {
    hide KeptBelow; hide Nearer; hide Work; hide Away;
    match a
    case Hot(ok) => HotNearer(s, ok); HotTouches(s, ok); hide HotStep;
    case Router(ok) => RouterNearer(s, ok); RouteLeaves(s, ok); hide RouteStep;
    case Executor(ok) => ExecutorNearer(s, ok); ExecLeaves(s, ok); hide ExecStep;
    case _ =>
  }

  // ---------------------------------------------------------------- moves of the others

  /** Neither a new bar nor the call of stop. */
  predicate Undisturbing(a: Action) { !a.Outside? && (a.Control? ==> a.begin) }

  lemma HotIdles(s: System, ok: bool)
    requires s.rings.market == [] && s.rings.fillIn == [] && s.rings.command == [] && HotWork(s.hot) == 0
    ensures var t := HotStep(s, ok); t == s.(hot := t.hot) && HotWork(t.hot) == 0
  {
    hide Fits; hide AsKind; hide Persist;
  }

  lemma RouterAside(s: System, ok: bool)
    ensures var t := RouteStep(s, ok);
      Work(t) < Work(s) || (Work(t) == Work(s) && t == s.(route := t.route)
        && RouteWork(s.route) == RouteWork(t.route) == 0)
  {
    hide Fits; hide AsKind; hide Persist; hide HotWork; hide ExecWork;
    if s.route.PersistRoute? { PersistTouches(s, 1, s.route.e, ok); }
  }

  lemma ExecutorAside(s: System, ok: bool)
    ensures var t := ExecStep(s, ok);
      Work(t) < Work(s) || (Work(t) == Work(s) && t == s.(exec := t.exec) && ExecWork(s.exec) == ExecWork(t.exec) == 0)
  {
    hide Fits; hide AsKind; hide Persist; hide HotWork; hide RouteWork;
    if s.exec.PersistExec? { PersistTouches(s, 3, s.exec.e, ok); }
  }

  /** The moves of the others never undo anything: they lower the work, or leave who owes a move and how
      far away its next item is. */
  lemma OthersNotFarther(s: System, a: Action)
    requires s.control.Running? && Undisturbing(a) && MoverOf(a) != Owing(s)
    ensures var t := Step(s, a);
      t.control.Running? && (Work(t) < Work(s) || (Work(t) == Work(s) && Owing(t) == Owing(s) && Away(t) == Away(s)))
  {
    hide KeptBelow; hide AsKind; hide Fits; hide HotAway; hide HotWork; hide RouteWork; hide ExecWork; hide Persist;
    match a
    case Hot(ok) => HotIdles(s, ok); HotTouches(s, ok); hide HotStep;
    case Router(ok) => RouterAside(s, ok); RouteLeaves(s, ok); hide RouteStep;
    case Executor(ok) => ExecutorAside(s, ok); ExecLeaves(s, ok); hide ExecStep;
    case Keeper => KeeperAside(s);
    case _ =>
  }

  lemma KeeperAside(s: System)
    ensures var t := KeeperStep(s);
      t == s.(keeper := t.keeper, rings := t.rings, counters := t.counters)
      && t.rings.(keep0 := s.rings.keep0, keep1 := s.rings.keep1, keep3 := s.rings.keep3, log := s.rings.log) == s.rings
  {}

  // ---------------------------------------------------------------- quiet in the end

  /** No more bars, and stop is not called. */
  ghost predicate Undisturbed(f: nat -> Action) { forall k: nat :: Undisturbing(f(k)) }

  lemma {:induction false} QuietFrom(actions: seq<Action>, f: nat -> Action, k: nat, j: nat) returns (n: nat)
    requires Fair(f) && Undisturbed(f) && k <= j
    requires var s := Run(INIT, actions + Prefix(f, k));
      s.control.Running? && (Owing(s) != World ==> MoverOf(f(j)) == Owing(s))
    ensures Run(INIT, actions + Prefix(f, n)).control.Running? && Quiet(Run(INIT, actions + Prefix(f, n)))
    decreases Work(Run(INIT, actions + Prefix(f, k))), Away(Run(INIT, actions + Prefix(f, k))), j - k
  {
    hide Run; hide Step; hide Work; hide Away; hide Owing; hide Fair; hide MoverOf; hide Quiet; hide Alive;
    hide FillFlow; hide CommandFlow; hide Working; hide Counted; hide Offered; hide Accounted; hide Phased;
    var s, t := Run(INIT, actions + Prefix(f, k)), Run(INIT, actions + Prefix(f, k + 1));
    QuietIsNoWork(s);
    if Owing(s) == World {
      n := k;
    } else {
      Reachable(actions + Prefix(f, k));
      AlwaysAlive(actions + Prefix(f, k));
      RunNext(actions, f, k);
      assert Undisturbing(f(k));
      if MoverOf(f(k)) == Owing(s) {
        OwingMoves(s, f(k));
        var i := NextOwing(f, t, k + 1);
        n := QuietFrom(actions, f, k + 1, i);
      } else {
        OthersNotFarther(s, f(k));
        if Work(t) < Work(s) {
          var i := NextOwing(f, t, k + 1);
          n := QuietFrom(actions, f, k + 1, i);
        } else {
          n := QuietFrom(actions, f, k + 1, j);
        }
      }
    }
  }

  lemma NextOwing(f: nat -> Action, s: System, k: nat) returns (j: nat)
    requires Fair(f)
    ensures j >= k && (Owing(s) != World ==> MoverOf(f(j)) == Owing(s))
  {
    hide Owing; hide MoverOf;
    j := k;
    if Owing(s) != World {
      assert MovesAgain(f, Owing(s), k);
      j :| j >= k && MoverOf(f(j)) == Owing(s);
    }
  }

  /** From every reachable running state, under every fair schedule without new bars and without stop, all
      pipelines become quiet, whatever pushes are refused. */
  lemma EveryFairScheduleQuiets(actions: seq<Action>, f: nat -> Action)
    requires Run(INIT, actions).control.Running? && Fair(f) && Undisturbed(f)
    ensures exists n :: Run(INIT, actions + Prefix(f, n)).control.Running? && Quiet(Run(INIT, actions + Prefix(f, n)))
  {
    hide Run; hide Fair; hide Quiet; hide Owing; hide MoverOf; hide Undisturbed;
    assert actions + Prefix(f, 0) == actions;
    var j := NextOwing(f, Run(INIT, actions), 0);
    var n := QuietFrom(actions, f, 0, j);
  }

  // ---------------------------------------------------------------- few bars fill no ring

  const FEW := RING_CAPACITY / 2

  /** No thread is refused a push for any other reason than a full ring. */
  predicate Willing(a: Action) {
    match a case Hot(ok) => ok case Router(ok) => ok case Executor(ok) => ok case _ => true
  }

  function Fed(actions: seq<Action>): nat {
    if actions == [] then 0 else Fed(actions[..|actions| - 1]) + One(actions[|actions| - 1].Outside?)
  }

  predicate BeforeLog(p: HotPc) { BeforeOrder(p) || p.LogBar? }

  /** What each ring can hold is bounded by the bars taken so far. */
  ghost predicate Bounded(s: System) {
    var (r, h, n) := (s.rings, s.history, |s.history.bars|);
    var (route, order) := (One(s.hot.PushRoute?), One(BeforeOrder(s.hot)));
    && |r.routing| + route + |r.command| + One(s.route.PushCommand?) <= n
    && |h.fills| + |r.fillIn| + One(s.exec.PushFill?) + |r.orders| + order <= n
    && |r.log| + One(BeforeLog(s.hot)) <= n
    && |r.keep0| + One(s.hot.PushRoute? || s.hot.PersistBar?) + One(s.hot.PersistFill?) <= n + |h.fills|
    && |r.keep1| + One(s.route.PushCommand? || s.route.PersistRoute?) + |r.routing| + route <= n
    && |r.keep3| + One(s.exec.PushFill? || s.exec.PersistExec?) + |r.orders| + order <= n
  }

  ghost predicate NothingLost(h: History) {
    h.lostRoutes == h.lostOrders == h.lostFills == h.lostCommands == h.lostPersists == h.lostLogs == 0
  }

  /** A willing push into a keeper ring with room. */
  lemma PersistKept(s: System, thread: nat, e: Dummy)
    requires thread == 0 || thread == 1 || thread == 3
    requires var r := s.rings;
      |if thread == 0 then r.keep0 else if thread == 1 then r.keep1 else r.keep3| < RING_CAPACITY
    ensures var (t, r) := (Persist(s, thread, e, true), s.rings);
      && t == s.(rings := t.rings, history := s.history.(accepted := s.history.accepted + 1))
      && t.rings == r.(keep0 := t.rings.keep0, keep1 := t.rings.keep1, keep3 := t.rings.keep3)
      && |t.rings.keep0| == |r.keep0| + One(thread == 0) && |t.rings.keep1| == |r.keep1| + One(thread == 1)
      && |t.rings.keep3| == |r.keep3| + One(thread == 3)
  {
    hide AsKind;
  }

  lemma FewBar(s: System, ok: bool)
    requires Bounded(s) && NothingLost(s.history) && ok && |s.history.bars| <= FEW
    ensures Bounded(BarPhase(s, ok)) && NothingLost(BarPhase(s, ok).history)
  {
    hide AsKind; hide Persist;
    if s.hot.PersistBar? { PersistKept(s, 0, s.hot.e); }
  }

  lemma FewFill(s: System, ok: bool)
    requires Bounded(s) && NothingLost(s.history) && ok && |s.history.bars| <= FEW
    ensures Bounded(FillPhase(s, ok)) && NothingLost(FillPhase(s, ok).history)
  {
    hide AsKind; hide Persist;
    if s.hot.PersistFill? { PersistKept(s, 0, s.hot.e); }
  }

  lemma FewCommand(s: System)
    requires Bounded(s) && NothingLost(s.history)
    ensures Bounded(CommandPhase(s)) && NothingLost(CommandPhase(s).history)
  {}

  lemma FewHot(s: System, ok: bool)
    requires Bounded(s) && NothingLost(s.history) && ok && |s.history.bars| <= FEW
    ensures Bounded(HotStep(s, ok)) && NothingLost(HotStep(s, ok).history)
  {
    FewBar(s, ok); FewFill(s, ok); FewCommand(s);
    hide BarPhase; hide FillPhase; hide CommandPhase; hide NothingLost;
  }

  lemma FewRoute(s: System, ok: bool)
    requires Bounded(s) && NothingLost(s.history) && ok && |s.history.bars| <= FEW
    ensures Bounded(RouteStep(s, ok)) && NothingLost(RouteStep(s, ok).history)
  {
    hide AsKind; hide Persist;
    if s.route.PersistRoute? { PersistKept(s, 1, s.route.e); }
  }

  lemma FewExec(s: System, ok: bool)
    requires Bounded(s) && NothingLost(s.history) && ok && |s.history.bars| <= FEW
    ensures Bounded(ExecStep(s, ok)) && NothingLost(ExecStep(s, ok).history)
  {
    hide AsKind; hide Persist;
    if s.exec.PersistExec? { PersistKept(s, 3, s.exec.e); }
  }

  /** The remaining threads only take from the keeper's rings, or start a loop at its check. */
  ghost predicate Slimmer(s: System, t: System) {
    && t.history == s.history
    && (t.hot == s.hot || t.hot == HotCheck) && (t.route == s.route || t.route == RouteCheck)
    && (t.exec == s.exec || t.exec == ExecCheck)
    && t.rings.routing == s.rings.routing && t.rings.orders == s.rings.orders
    && t.rings.fillIn == s.rings.fillIn && t.rings.command == s.rings.command
    && |t.rings.keep0| <= |s.rings.keep0| && |t.rings.keep1| <= |s.rings.keep1|
    && |t.rings.keep3| <= |s.rings.keep3| && |t.rings.log| <= |s.rings.log|
  }

  lemma SlimmerBounded(s: System, t: System)
    requires Bounded(s) && Slimmer(s, t)
    ensures Bounded(t)
  {}

  lemma FewOthers(s: System, a: Action)
    requires !a.Hot? && !a.Router? && !a.Executor?
    ensures Slimmer(s, Step(s, a))
  {
    hide AsKind; hide Fits;
    match a
    case Keeper => KeeperAside(s); KeeperSlims(s); hide KeeperStep;
    case Control(begin) => ControlSlims(s, begin); hide ControlStep;
    case _ =>
  }

  lemma KeeperSlims(s: System)
    ensures var r := KeeperStep(s).rings;
      |r.keep0| <= |s.rings.keep0| && |r.keep1| <= |s.rings.keep1| && |r.keep3| <= |s.rings.keep3|
        && |r.log| <= |s.rings.log|
  {
    hide CountKept;
  }

  lemma ControlSlims(s: System, begin: bool)
    ensures Slimmer(s, ControlStep(s, begin))
  {}

  /** With few bars every willing push finds room. */
  lemma FewStep(s: System, a: Action)
    requires Bounded(s) && NothingLost(s.history) && Willing(a) && |s.history.bars| <= FEW
    ensures Bounded(Step(s, a)) && NothingLost(Step(s, a).history)
  {
    hide Bounded; hide NothingLost; hide HotStep; hide RouteStep; hide ExecStep;
    match a
    case Hot(ok) => FewHot(s, ok);
    case Router(ok) => FewRoute(s, ok);
    case Executor(ok) => FewExec(s, ok);
    case _ => FewOthers(s, a); SlimmerBounded(s, Step(s, a)); hide Step;
  }

  /** Bars taken or waiting were fed. */
  lemma FedStep(s: System, a: Action)
    ensures var t := Step(s, a);
      |t.rings.market| + |t.history.bars| <= |s.rings.market| + |s.history.bars| + One(a.Outside?)
  {
    hide AsKind; hide Fits; hide Persist;
    match a
    case Hot(ok) => HotFed(s, ok); hide HotStep;
    case Router(ok) => RouteFed(s, ok); hide RouteStep;
    case Executor(ok) => ExecFed(s, ok); hide ExecStep;
    case Keeper => KeeperAside(s); hide KeeperStep;
    case _ =>
  }

  lemma HotFed(s: System, ok: bool)
    ensures var t := HotStep(s, ok); |t.rings.market| + |t.history.bars| == |s.rings.market| + |s.history.bars|
  {
    hide AsKind; hide Fits; hide Persist;
    if s.hot.PersistBar? || s.hot.PersistFill? { PersistTouches(s, 0, s.hot.e, ok); }
  }

  lemma RouteFed(s: System, ok: bool)
    ensures var t := RouteStep(s, ok); t.rings.market == s.rings.market && t.history.bars == s.history.bars
  {
    hide AsKind; hide Fits; hide Persist;
    if s.route.PersistRoute? { PersistTouches(s, 1, s.route.e, ok); }
  }

  lemma ExecFed(s: System, ok: bool)
    ensures var t := ExecStep(s, ok); t.rings.market == s.rings.market && t.history.bars == s.history.bars
  {
    hide AsKind; hide Fits; hide Persist;
    if s.exec.PersistExec? { PersistTouches(s, 3, s.exec.e, ok); }
  }

  /** In every run of willing threads with few bars fed, over any start and stop cycles, no push is refused. */
  lemma {:induction false} FewBarsLoseNothing(actions: seq<Action>)
    requires (forall i :: 0 <= i < |actions| ==> Willing(actions[i])) && Fed(actions) <= FEW
    ensures var s := Run(INIT, actions);
      && Bounded(s) && NothingLost(s.history)
      && |s.rings.market| + |s.history.bars| <= Fed(actions)
  {
    hide Bounded; hide NothingLost; hide Step; hide Willing;
    if actions == [] {
      InitBounded();
    } else {
      var n := |actions| - 1;
      FewBarsLoseNothing(actions[..n]);
      FewStep(Run(INIT, actions[..n]), actions[n]);
      FedStep(Run(INIT, actions[..n]), actions[n]);
    }
  }

  lemma InitBounded()
    ensures Bounded(INIT) && NothingLost(INIT.history)
  {}

  // ---------------------------------------------------------------- few bars, all handled

  lemma {:induction false} FedPrefix(actions: seq<Action>, f: nat -> Action, n: nat)
    requires Undisturbed(f)
    ensures Fed(actions + Prefix(f, n)) == Fed(actions)
  {
    if n == 0 {
      assert actions + Prefix(f, 0) == actions;
    } else {
      FedPrefix(actions, f, n - 1);
      var more := actions + Prefix(f, n);
      assert more[..|more| - 1] == actions + Prefix(f, n - 1);
      assert Undisturbing(f(n - 1));
    }
  }

  /** All bars were taken, and the fills and the commands are these bars, one each, in order. */
  ghost predicate AllHandled(s: System) {
    && Quiet(s) && NothingLost(s.history)
    && CopiesAll(s.history.fills, FillKind, s.history.bars)
    && CopiesAll(s.history.commands, CommandKind, s.history.bars)
    && s.counters.bars == s.counters.fills == s.counters.commands == |s.history.bars|
  }

  /** With few bars and willing threads, every fair schedule without stop ends with every bar handled: routed,
      ordered, filled and commanded, in order and without a loss. */
  lemma FewBarsAllHandled(actions: seq<Action>, f: nat -> Action)
    requires Run(INIT, actions).control.Running? && Fair(f) && Undisturbed(f)
    requires (forall i :: 0 <= i < |actions| ==> Willing(actions[i])) && (forall k: nat :: Willing(f(k)))
    requires Fed(actions) <= FEW
    ensures exists n :: AllHandled(Run(INIT, actions + Prefix(f, n)))
  {
    hide Run; hide Fair; hide Quiet; hide Undisturbed; hide Bounded; hide NothingLost; hide Willing;
    hide FillFlow; hide CommandFlow; hide Working; hide Counted; hide Offered; hide Accounted; hide Phased;
    EveryFairScheduleQuiets(actions, f);
    var n :| Run(INIT, actions + Prefix(f, n)).control.Running? && Quiet(Run(INIT, actions + Prefix(f, n)));
    var more := actions + Prefix(f, n);
    FedPrefix(actions, f, n);
    forall i | 0 <= i < |more| ensures Willing(more[i]) { if i >= |actions| { assert more[i] == f(i - |actions|); } }
    FewBarsLoseNothing(more);
    Reachable(more);
    QuietHandled(Run(INIT, more));
  }

  lemma QuietHandled(s: System)
    requires Coherent(s) && Quiet(s) && NothingLost(s.history)
    ensures AllHandled(s)
  {
    hide Sub; hide Accounted; hide KeptBelow;
    var h := s.history;
    assert FillChain(s) == h.fills && CommandChain(s) == h.commands;
    SubWhole(h.fills, Relabelled(h.bars, FillKind));
    SubWhole(h.commands, Relabelled(h.bars, CommandKind));
  }
}
