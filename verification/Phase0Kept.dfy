/** What passed through the rings of the runtime: the bars thread 0 takes are those the market ring
    accepted, and the keeper takes copies of what threads 0, 1 and 3 handled, in order. */
module Phase0Kept {
  import opened Phase0

  // ---------------------------------------------------------------- what a run records

  /** The bars the market ring accepted. */
  function Fed(actions: seq<Action>): seq<Dummy> {
    if actions == [] then []
    else
      var n := |actions| - 1;
      var s, a := Run(INIT, actions[..n]), actions[n];
      Fed(actions[..n]) + if a.Outside? && a.ok && |s.rings.market| < 1024 then [a.e] else []
  }

  /** The bars and fills thread 0 took. */
  function Handled(actions: seq<Action>): seq<Dummy> {
    if actions == [] then []
    else
      var n := |actions| - 1;
      var s, a := Run(INIT, actions[..n]), actions[n];
      Handled(actions[..n]) + HandledNow(s, a)
  }

  function HandledNow(s: System, a: Action): seq<Dummy> {
    if a.Hot? && s.hot.PopBar? && s.rings.market != [] then [s.rings.market[0]]
    else if a.Hot? && s.hot.PopFill? && s.rings.fillIn != [] then [s.rings.fillIn[0]]
    else []
  }

  /** What the keeper took from the persist ring of thread 0 (i = 0), 1 (i = 1) or 3 (i = 2). */
  function Taken(actions: seq<Action>, i: nat): seq<Dummy> {
    if actions == [] then []
    else
      var n := |actions| - 1;
      Taken(actions[..n], i) + KeptNow(Run(INIT, actions[..n]), actions[n], i)
  }

  function KeptNow(s: System, a: Action, i: nat): seq<Dummy> {
    if a.Keeper? && i < 3 && (s.keeper == Take(i) || s.keeper == Drain(i)) && KeepRing(s.rings, i) != []
    then [KeepRing(s.rings, i)[0]] else []
  }

  // ---------------------------------------------------------------- the market ring is first in, first out

  lemma MarketStep(s: System, a: Action)
    requires Phased(s)
    ensures var t := Step(s, a);
      t.history.bars + t.rings.market == s.history.bars + s.rings.market
        + if a.Outside? && a.ok && |s.rings.market| < 1024 then [a.e] else []
  {
    hide Phased; hide AsKind; hide Persist; hide KeepRing; hide KeptBelow;
    match a
    case Hot(ok) => MarketHot(s, ok);
    case Router(ok) => if s.route.PersistRoute? { PersistTouches(s, 1, s.route.e, ok); }
    case Executor(ok) => if s.exec.PersistExec? { PersistTouches(s, 3, s.exec.e, ok); }
    case Keeper => KeeperTouches(s);
    case _ =>
  }

  lemma KeeperTouches(s: System)
    ensures var t := KeeperStep(s);
      && t.(keeper := s.keeper, rings := s.rings, counters := s.counters) == s
      && t.rings.(keep0 := s.rings.keep0, keep1 := s.rings.keep1, keep3 := s.rings.keep3, log := s.rings.log) == s.rings
      && s.rings.keep0 == KeptNow(s, Keeper, 0) + t.rings.keep0
      && s.rings.keep1 == KeptNow(s, Keeper, 1) + t.rings.keep1
      && s.rings.keep3 == KeptNow(s, Keeper, 2) + t.rings.keep3
  {
    KeeperFrame(s);
    KeeperTakes(s, 0); KeeperTakes(s, 1); KeeperTakes(s, 2);
    hide KeeperStep; hide KeptNow;
  }

  lemma KeeperFrame(s: System)
    ensures var t := KeeperStep(s);
      && t.(keeper := s.keeper, rings := s.rings, counters := s.counters) == s
      && t.rings.(keep0 := s.rings.keep0, keep1 := s.rings.keep1, keep3 := s.rings.keep3, log := s.rings.log) == s.rings
  {
    hide PopKept; hide KeepRing; hide CountKept;
    if s.keeper.Take? || s.keeper.Drain? { PopAlone(s.rings, s.keeper.ring); }
  }

  lemma KeeperTakes(s: System, i: nat)
    requires i < 3
    ensures KeepRing(s.rings, i) == KeptNow(s, Keeper, i) + KeepRing(KeeperStep(s).rings, i)
  {
    hide PopKept; hide KeepRing; hide CountKept;
    if (s.keeper.Take? || s.keeper.Drain?) && s.keeper.ring < 4 && KeepRing(s.rings, s.keeper.ring) != [] {
      PopParts(s.rings, s.keeper.ring, i);
    }
  }

  lemma PopParts(r: Rings, i: nat, j: nat)
    requires i < 4 && j < 3 && KeepRing(r, i) != []
    ensures KeepRing(PopKept(r, i), j) == if i == j then KeepRing(r, i)[1..] else KeepRing(r, j)
  {}

  lemma MarketHot(s: System, ok: bool)
    ensures var t := HotStep(s, ok); t.history.bars + t.rings.market == s.history.bars + s.rings.market
  {
    hide Fits; hide AsKind; hide Persist;
    match s.hot
    case PersistBar(e) => PersistTouches(s, 0, e, ok);
    case PersistFill(e) => PersistTouches(s, 0, e, ok);
    case _ =>
  }

  /** The bars thread 0 took, followed by those still in the market ring, are the accepted ones in order. */
  lemma {:induction false} BarsAreFed(actions: seq<Action>)
    ensures var s := Run(INIT, actions); s.history.bars + s.rings.market == Fed(actions)
  {
    hide Step; hide Coherent;
    if actions != [] {
      var n := |actions| - 1;
      BarsAreFed(actions[..n]);
      Reachable(actions[..n]);
      assert Phased(Run(INIT, actions[..n])) by { CoherentPhased(Run(INIT, actions[..n])); }
      MarketStep(Run(INIT, actions[..n]), actions[n]);
    }
  }

  lemma CoherentPhased(s: System)
    requires Coherent(s)
    ensures Phased(s) && Working(s)
  {
    hide Phased; hide Accounted; hide Working; hide FillFlow; hide CommandFlow; hide Counted; hide Offered;
  }

  // ---------------------------------------------------------------- what a relaying thread still has to persist

  function HotHand(p: HotPc): seq<Dummy> {
    if p.PushRoute? || p.PersistBar? || p.PersistFill? then [p.e] else []
  }

  function RouteHand(p: RoutePc): seq<Dummy> { if p.PushCommand? || p.PersistRoute? then [p.e] else [] }

  function ExecHand(p: ExecPc): seq<Dummy> { if p.PushFill? || p.PersistExec? then [p.e] else [] }

  /** Taken, waiting, in hand and on the way: some of the offered events, in order. */
  ghost predicate Line(kept: seq<Dummy>, ring: seq<Dummy>, hand: seq<Dummy>, sent: seq<Dummy>, offered: seq<Dummy>) {
    Sub(Chain(PersistKind, kept, ring, hand, sent), Relabelled(offered, PersistKind))
  }

  lemma LineFlows(kept: seq<Dummy>, ring: seq<Dummy>, hand: seq<Dummy>, sent: seq<Dummy>, offered: seq<Dummy>)
    returns (lost: nat)
    requires Line(kept, ring, hand, sent, offered)
    ensures Flow(PersistKind, Chain(PersistKind, kept, ring, hand, sent), offered, lost)
  {
    hide Sub; hide Chain;
    SubWhole(Chain(PersistKind, kept, ring, hand, sent), Relabelled(offered, PersistKind));
    lost := |offered| - |Chain(PersistKind, kept, ring, hand, sent)|;
  }

  lemma LineOffers(kept: seq<Dummy>, ring: seq<Dummy>, hand: seq<Dummy>, sent: seq<Dummy>, offered: seq<Dummy>,
                   e: Dummy)
    requires Line(kept, ring, hand, sent, offered)
    ensures Line(kept, ring, hand, sent + [e], offered + [e]) && Line(kept, ring, hand, sent, offered + [e])
  {
    hide Sub; hide Chain;
    var lost := LineFlows(kept, ring, hand, sent, offered);
    FlowOffers(PersistKind, kept, ring, hand, sent, offered, lost, e);
  }

  lemma LinePersists(kept: seq<Dummy>, ring: seq<Dummy>, e: Dummy, sent: seq<Dummy>, offered: seq<Dummy>)
    requires Line(kept, ring, [e], sent, offered)
    ensures Line(kept, ring + [AsKind(e, PersistKind)], [], sent, offered) && Line(kept, ring, [], sent, offered)
  {
    hide Sub; hide Chain; hide AsKind;
    var lost := LineFlows(kept, ring, [e], sent, offered);
    FlowDrops(PersistKind, kept, ring, e, sent, offered, lost);
    ChainDelivers(PersistKind, kept, ring, e, sent);
  }

  lemma LineGrabs(kept: seq<Dummy>, ring: seq<Dummy>, sent: seq<Dummy>, offered: seq<Dummy>)
    requires Line(kept, ring, [], sent, offered) && sent != []
    ensures Line(kept, ring, [sent[0]], sent[1..], offered)
  {
    hide Sub; hide Chain;
    ChainGrabs(PersistKind, kept, ring, sent);
  }

  lemma LineKeeps(kept: seq<Dummy>, now: seq<Dummy>, ring: seq<Dummy>, hand: seq<Dummy>, sent: seq<Dummy>,
                  offered: seq<Dummy>)
    requires Line(kept, now + ring, hand, sent, offered)
    ensures Line(kept + now, ring, hand, sent, offered)
  {
    hide Sub;
    assert kept + now + ring == kept + (now + ring);
  }

  // ---------------------------------------------------------------- the three lines of the keeper

  ghost predicate HotLine(s: System, kept: seq<Dummy>, handled: seq<Dummy>) {
    Line(kept, s.rings.keep0, HotHand(s.hot), [], handled)
  }

  ghost predicate RouteLine(s: System, kept: seq<Dummy>) {
    Line(kept, s.rings.keep1, RouteHand(s.route), s.rings.routing, Routed(s))
  }

  ghost predicate ExecLine(s: System, kept: seq<Dummy>) {
    Line(kept, s.rings.keep3, ExecHand(s.exec), s.rings.orders, Ordered(s))
  }

  lemma PersistAdds(s: System, thread: nat, e: Dummy, ok: bool)
    ensures var t := Persist(s, thread, e, ok).rings;
      && (t.keep0 == s.rings.keep0 || (thread == 0 && t.keep0 == s.rings.keep0 + [AsKind(e, PersistKind)]))
      && (t.keep1 == s.rings.keep1 || (thread == 1 && t.keep1 == s.rings.keep1 + [AsKind(e, PersistKind)]))
      && (t.keep3 == s.rings.keep3 || (thread > 1 && t.keep3 == s.rings.keep3 + [AsKind(e, PersistKind)]))
  {
    hide Fits; hide AsKind;
  }

  lemma HotLineTaken(s: System, kept: seq<Dummy>, handled: seq<Dummy>, e: Dummy)
    requires Line(kept, s.rings.keep0, [], [], handled)
    ensures Line(kept, s.rings.keep0, [e], [], handled + [e])
  {
    LineOffers(kept, s.rings.keep0, [], [], handled, e);
    hide Line;
    assert [] + [e] == [e];
    LineGrabs(kept, s.rings.keep0, [e], handled + [e]);
    assert [e][1..] == [];
  }

  lemma HotLineHot(s: System, kept: seq<Dummy>, handled: seq<Dummy>, ok: bool)
    requires HotLine(s, kept, handled)
    ensures HotLine(HotStep(s, ok), kept, handled + HandledNow(s, Hot(ok)))
  {
    hide Fits; hide AsKind; hide Persist; hide Line;
    assert handled + [] == handled;
    match s.hot
    case PopBar => if s.rings.market != [] { HotLineTaken(s, kept, handled, s.rings.market[0]); }
    case PopFill => if s.rings.fillIn != [] { HotLineTaken(s, kept, handled, s.rings.fillIn[0]); }
    case PersistBar(e) =>
      PersistAdds(s, 0, e, ok);
      LinePersists(kept, s.rings.keep0, e, [], handled);
    case PersistFill(e) =>
      PersistAdds(s, 0, e, ok);
      LinePersists(kept, s.rings.keep0, e, [], handled);
    case _ =>
  }

  lemma RouteLineBar(s: System, kept: seq<Dummy>, ok: bool)
    requires RouteLine(s, kept) && Working(s)
    ensures RouteLine(BarPhase(s, ok), kept)
  {
    hide Fits; hide AsKind; hide Persist; hide Line; hide ButLast;
    match s.hot
    case PopBar => if s.rings.market != [] { ButLastIs(s.history.bars, s.rings.market[0]); }
    case PushRoute(e) => LineOffers(kept, s.rings.keep1, RouteHand(s.route), s.rings.routing, ButLast(s.history.bars),
      e);
    case PersistBar(e) => PersistTouches(s, 0, e, ok); PersistAdds(s, 0, e, ok);
    case _ =>
  }

  lemma ExecLineBar(s: System, kept: seq<Dummy>, ok: bool)
    requires ExecLine(s, kept) && Working(s)
    ensures ExecLine(BarPhase(s, ok), kept)
  {
    hide Fits; hide AsKind; hide Persist; hide Line; hide ButLast;
    match s.hot
    case PopBar => if s.rings.market != [] { ButLastIs(s.history.bars, s.rings.market[0]); }
    case PushOrder(e) => LineOffers(kept, s.rings.keep3, ExecHand(s.exec), s.rings.orders, ButLast(s.history.bars), e);
    case PersistBar(e) => PersistTouches(s, 0, e, ok); PersistAdds(s, 0, e, ok);
    case _ =>
  }

  /** Taking fills and commands does not concern threads 1 and 3. */
  lemma FillAside(s: System, ok: bool)
    ensures var t := FillPhase(s, ok);
      && t.rings.keep1 == s.rings.keep1 && t.rings.keep3 == s.rings.keep3 && t.route == s.route && t.exec == s.exec
      && t.rings.routing == s.rings.routing && t.rings.orders == s.rings.orders && t.history.bars == s.history.bars
      && (BeforeOrder(t.hot) <==> BeforeOrder(s.hot)) && (t.hot.PushRoute? <==> s.hot.PushRoute?)
  {
    hide Fits; hide AsKind; hide Persist;
    if s.hot.PersistFill? { PersistTouches(s, 0, s.hot.e, ok); PersistAdds(s, 0, s.hot.e, ok); }
  }

  lemma RouteLineHot(s: System, kept: seq<Dummy>, ok: bool)
    requires RouteLine(s, kept) && Working(s)
    ensures RouteLine(HotStep(s, ok), kept)
  {
    hide Line; hide ButLast; hide BarPhase; hide FillPhase;
    RouteLineBar(s, kept, ok);
    FillAside(s, ok);
  }

  lemma ExecLineHot(s: System, kept: seq<Dummy>, ok: bool)
    requires ExecLine(s, kept) && Working(s)
    ensures ExecLine(HotStep(s, ok), kept)
  {
    hide Line; hide ButLast; hide BarPhase; hide FillPhase;
    ExecLineBar(s, kept, ok);
    FillAside(s, ok);
  }

  ghost predicate Lines(s: System, kept0: seq<Dummy>, kept1: seq<Dummy>, kept3: seq<Dummy>, handled: seq<Dummy>) {
    HotLine(s, kept0, handled) && RouteLine(s, kept1) && ExecLine(s, kept3)
  }

  lemma LinesRoute(s: System, kept0: seq<Dummy>, kept1: seq<Dummy>, kept3: seq<Dummy>, handled: seq<Dummy>, ok: bool)
    requires Lines(s, kept0, kept1, kept3, handled)
    ensures Lines(RouteStep(s, ok), kept0, kept1, kept3, handled)
  {
    hide Fits; hide AsKind; hide Persist; hide Line; hide ButLast;
    match s.route
    case PopRoute =>
      if s.rings.routing != [] { LineGrabs(kept1, s.rings.keep1, s.rings.routing, Routed(s)); }
    case PersistRoute(e) =>
      PersistTouches(s, 1, e, ok);
      PersistAdds(s, 1, e, ok);
      LinePersists(kept1, s.rings.keep1, e, s.rings.routing, Routed(s));
    case _ =>
  }

  lemma LinesExec(s: System, kept0: seq<Dummy>, kept1: seq<Dummy>, kept3: seq<Dummy>, handled: seq<Dummy>, ok: bool)
    requires Lines(s, kept0, kept1, kept3, handled)
    ensures Lines(ExecStep(s, ok), kept0, kept1, kept3, handled)
  {
    hide Fits; hide AsKind; hide Persist; hide Line; hide ButLast;
    match s.exec
    case PopOrder => if s.rings.orders != [] { LineGrabs(kept3, s.rings.keep3, s.rings.orders, Ordered(s)); }
    case PersistExec(e) =>
      PersistTouches(s, 3, e, ok);
      PersistAdds(s, 3, e, ok);
      LinePersists(kept3, s.rings.keep3, e, s.rings.orders, Ordered(s));
    case _ =>
  }

  lemma LinesKeeper(s: System, kept0: seq<Dummy>, kept1: seq<Dummy>, kept3: seq<Dummy>, handled: seq<Dummy>)
    requires Lines(s, kept0, kept1, kept3, handled)
    ensures Lines(KeeperStep(s), kept0 + KeptNow(s, Keeper, 0), kept1 + KeptNow(s, Keeper, 1),
                  kept3 + KeptNow(s, Keeper, 2), handled)
  {
    KeeperTouches(s);
    var t := KeeperStep(s);
    hide Line; hide KeptNow; hide KeeperStep; hide ButLast;
    LineKeeps(kept0, KeptNow(s, Keeper, 0), t.rings.keep0, HotHand(s.hot), [], handled);
    LineKeeps(kept1, KeptNow(s, Keeper, 1), t.rings.keep1, RouteHand(s.route), s.rings.routing, Routed(s));
    LineKeeps(kept3, KeptNow(s, Keeper, 2), t.rings.keep3, ExecHand(s.exec), s.rings.orders, Ordered(s));
  }

  lemma LinesOthers(s: System, kept0: seq<Dummy>, kept1: seq<Dummy>, kept3: seq<Dummy>, handled: seq<Dummy>, a: Action)
    requires Lines(s, kept0, kept1, kept3, handled) && Phased(s) && (a.Api? || a.Control? || a.Outside?)
    ensures Lines(Step(s, a), kept0, kept1, kept3, handled)
  {
    hide Line; hide ButLast; hide KeptBelow; hide Fits;
  }

  lemma LinesStep(s: System, kept0: seq<Dummy>, kept1: seq<Dummy>, kept3: seq<Dummy>, handled: seq<Dummy>, a: Action)
    requires Lines(s, kept0, kept1, kept3, handled) && Coherent(s)
    ensures Lines(Step(s, a), kept0 + KeptNow(s, a, 0), kept1 + KeptNow(s, a, 1), kept3 + KeptNow(s, a, 2),
                  handled + HandledNow(s, a))
  {
    hide HotStep; hide RouteStep; hide ExecStep; hide KeeperStep; hide ControlStep; hide ApiStep; hide Feed;
    hide HotLine; hide RouteLine; hide ExecLine; hide Coherent; hide Phased; hide Working; hide Lines;
    assert kept0 + [] == kept0 && kept1 + [] == kept1 && kept3 + [] == kept3 && handled + [] == handled;
    CoherentPhased(s);
    match a
    case Hot(ok) => LinesHot(s, kept0, kept1, kept3, handled, ok);
    case Router(ok) => LinesRoute(s, kept0, kept1, kept3, handled, ok);
    case Executor(ok) => LinesExec(s, kept0, kept1, kept3, handled, ok);
    case Keeper => LinesKeeper(s, kept0, kept1, kept3, handled);
    case _ => LinesOthers(s, kept0, kept1, kept3, handled, a);
  }

  lemma LinesHot(s: System, kept0: seq<Dummy>, kept1: seq<Dummy>, kept3: seq<Dummy>, handled: seq<Dummy>, ok: bool)
    requires Lines(s, kept0, kept1, kept3, handled) && Working(s)
    ensures Lines(HotStep(s, ok), kept0, kept1, kept3, handled + HandledNow(s, Hot(ok)))
  {
    hide HotStep; hide HotLine; hide RouteLine; hide ExecLine; hide Working;
    HotLineHot(s, kept0, handled, ok);
    RouteLineHot(s, kept1, ok);
    ExecLineHot(s, kept3, ok);
  }

  lemma {:induction false} LinesAlways(actions: seq<Action>)
    ensures Lines(Run(INIT, actions), Taken(actions, 0), Taken(actions, 1), Taken(actions, 2), Handled(actions))
  {
    hide Step; hide Coherent; hide Lines;
    if actions == [] {
      NoLines();
    } else {
      var n := |actions| - 1;
      LinesAlways(actions[..n]);
      Reachable(actions[..n]);
      LinesStep(Run(INIT, actions[..n]), Taken(actions[..n], 0), Taken(actions[..n], 1), Taken(actions[..n], 2),
                Handled(actions[..n]), actions[n]);
    }
  }

  lemma NoLines()
    ensures Lines(INIT, [], [], [], [])
  {
    assert Chain(PersistKind, [], [], [], []) == [];
  }

  // ---------------------------------------------------------------- what the keeper gets

  lemma LineCopies(kept: seq<Dummy>, ring: seq<Dummy>, hand: seq<Dummy>, sent: seq<Dummy>, offered: seq<Dummy>)
    requires Line(kept, ring, hand, sent, offered)
    ensures CopiesSome(kept + ring, PersistKind, offered)
  {
    hide Sub; hide CopiesSome;
    var chain := Chain(PersistKind, kept, ring, hand, sent);
    SubPrefix(chain, |kept + ring|, Relabelled(offered, PersistKind));
    assert chain[..|kept + ring|] == kept + ring;
    SubCopies(kept + ring, PersistKind, offered);
  }

  lemma CopiesMore(xs: seq<Dummy>, bars: seq<Dummy>)
    ensures CopiesSome(xs, PersistKind, ButLast(bars)) ==> CopiesSome(xs, PersistKind, bars)
  {
    if CopiesSome(xs, PersistKind, ButLast(bars)) {
      var at :| CopiesAt(xs, PersistKind, ButLast(bars), at);
      assert CopiesAt(xs, PersistKind, bars, at);
    }
  }

  /** At every moment, what the keeper took from each persist ring and what still waits in it are, in order
      and labelled for persistence, some of the events its thread handled: of thread 0 the bars and fills
      it took, of threads 1 and 3 the bars. */
  lemma KeptFollows(actions: seq<Action>)
    ensures var s := Run(INIT, actions);
      && CopiesSome(Taken(actions, 0) + s.rings.keep0, PersistKind, Handled(actions))
      && CopiesSome(Taken(actions, 1) + s.rings.keep1, PersistKind, s.history.bars)
      && CopiesSome(Taken(actions, 2) + s.rings.keep3, PersistKind, s.history.bars)
  {
    hide Line; hide Run; hide Taken; hide Handled; hide CopiesSome;
    LinesAlways(actions);
    var s := Run(INIT, actions);
    LineCopies(Taken(actions, 0), s.rings.keep0, HotHand(s.hot), [], Handled(actions));
    LineCopies(Taken(actions, 1), s.rings.keep1, RouteHand(s.route), s.rings.routing, Routed(s));
    LineCopies(Taken(actions, 2), s.rings.keep3, ExecHand(s.exec), s.rings.orders, Ordered(s));
    CopiesMore(Taken(actions, 1) + s.rings.keep1, s.history.bars);
    CopiesMore(Taken(actions, 2) + s.rings.keep3, s.history.bars);
  }

  // ---------------------------------------------------------------- nothing refused, everything kept

  lemma HandledStep(s: System, a: Action)
    requires Phased(s)
    ensures var t := Step(s, a);
      |t.history.bars| + |t.history.fills| == |s.history.bars| + |s.history.fills| + |HandledNow(s, a)|
  {
    hide Phased; hide AsKind; hide Persist; hide Fits; hide KeptBelow; hide KeepRing;
    match a
    case Hot(ok) =>
      if s.hot.PersistBar? { PersistTouches(s, 0, s.hot.e, ok); }
      if s.hot.PersistFill? { PersistTouches(s, 0, s.hot.e, ok); }
    case Router(ok) => if s.route.PersistRoute? { PersistTouches(s, 1, s.route.e, ok); }
    case Executor(ok) => if s.exec.PersistExec? { PersistTouches(s, 3, s.exec.e, ok); }
    case Keeper => KeeperTouches(s); hide KeeperStep;
    case _ =>
  }

  lemma KeptStep(s: System, a: Action)
    requires Phased(s)
    ensures var t := Step(s, a);
      t.counters.persisted + InHand(t.keeper, false) == s.counters.persisted + InHand(s.keeper, false)
        + |KeptNow(s, a, 0)| + |KeptNow(s, a, 1)| + |KeptNow(s, a, 2)|
  {
    hide Fits; hide AsKind; hide KeptBelow; hide Persist; hide PopKept; hide KeeperStep;
    match a
    case Hot(ok) =>
      if s.hot.PersistBar? { PersistTouches(s, 0, s.hot.e, ok); }
      if s.hot.PersistFill? { PersistTouches(s, 0, s.hot.e, ok); }
    case Router(ok) => if s.route.PersistRoute? { PersistTouches(s, 1, s.route.e, ok); }
    case Executor(ok) => if s.exec.PersistExec? { PersistTouches(s, 3, s.exec.e, ok); }
    case Keeper => KeeperCounts(s);
    case _ =>
  }

  lemma KeeperCounts(s: System)
    ensures var t := KeeperStep(s);
      t.counters.persisted + InHand(t.keeper, false) == s.counters.persisted + InHand(s.keeper, false)
        + |KeptNow(s, Keeper, 0)| + |KeptNow(s, Keeper, 1)| + |KeptNow(s, Keeper, 2)|
  {
    hide PopKept; hide KeepRing;
  }

  lemma {:induction false} Counts(actions: seq<Action>)
    ensures var s := Run(INIT, actions);
      && |Handled(actions)| == |s.history.bars| + |s.history.fills|
      && |Taken(actions, 0)| + |Taken(actions, 1)| + |Taken(actions, 2)| ==
        s.counters.persisted + InHand(s.keeper, false)
  {
    hide Step; hide Coherent; hide KeptNow; hide HandledNow;
    if actions != [] {
      var n := |actions| - 1;
      Counts(actions[..n]);
      Reachable(actions[..n]);
      CoherentPhased(Run(INIT, actions[..n]));
      HandledStep(Run(INIT, actions[..n]), actions[n]);
      KeptStep(Run(INIT, actions[..n]), actions[n]);
    }
  }

  lemma CopiesFew(xs: seq<Dummy>, k: Kind, ys: seq<Dummy>)
    requires CopiesSome(xs, k, ys)
    ensures |xs| <= |ys| && (|xs| == |ys| ==> CopiesAll(xs, k, ys))
  {
    var at :| CopiesAt(xs, k, ys, at);
    IndicesGrow(at, |ys|);
  }

  lemma {:induction false} IndicesGrow(at: seq<nat>, n: nat)
    requires forall i, j :: 0 <= i < j < |at| ==> at[i] < at[j]
    requires forall i :: 0 <= i < |at| ==> at[i] < n
    ensures |at| <= n && (|at| == n ==> forall i :: 0 <= i < n ==> at[i] == i)
    decreases n
  {
    if at != [] { IndicesGrow(at[..|at| - 1], at[|at| - 1]); }
  }

  /** Once the pipelines are quiet and no more bars are fed, when stop has returned and no push was refused,
      the bars handled are the bars accepted, each of them became one fill and one command, and the keeper
      took every bar and every fill of thread 0 and every bar of threads 1 and 3, in order. */
  lemma EverythingIsKept(pre: seq<Action>, post: seq<Action>)
    requires Quiet(Run(INIT, pre)) && (forall i :: 0 <= i < |post| ==> !post[i].Outside?)
    requires var s := Run(INIT, pre + post);
      && s.control.Idle?
      && s.history.lostRoutes == s.history.lostOrders == s.history.lostFills == s.history.lostCommands == 0
      && s.history.lostPersists == 0
    ensures var all, h := pre + post, Run(INIT, pre + post).history;
      && h.bars == Fed(all)
      && CopiesAll(h.fills, FillKind, Fed(all)) && CopiesAll(h.commands, CommandKind, Fed(all))
      && |Handled(all)| == 2 * |Fed(all)| && CopiesAll(Taken(all, 0), PersistKind, Handled(all))
      && CopiesAll(Taken(all, 1), PersistKind, Fed(all)) && CopiesAll(Taken(all, 2), PersistKind, Fed(all))
  {
    hide Run; hide Taken; hide Handled; hide Fed; hide CopiesSome; hide CopiesAll; hide Quiet; hide Coherent;
    var all := pre + post;
    var s := Run(INIT, all);
    QuietThenStop(pre, post);
    QuietStays(pre, post);
    ShutdownLosesNothing(all);
    Reachable(all);
    OffKeeper(s);
    QuietMarket(s);
    BarsAreFed(all);
    KeptFollows(all);
    Counts(all);
    assert Taken(all, 0) + [] == Taken(all, 0) && Taken(all, 1) + [] == Taken(all, 1)
      && Taken(all, 2) + [] == Taken(all, 2);
    CopiesFew(Taken(all, 0), PersistKind, Handled(all));
    CopiesFew(Taken(all, 1), PersistKind, s.history.bars);
    CopiesFew(Taken(all, 2), PersistKind, s.history.bars);
  }

  lemma QuietMarket(s: System)
    requires Quiet(s)
    ensures s.rings.market == []
  {}

  lemma OffKeeper(s: System)
    requires Coherent(s) && s.control.Idle?
    ensures InHand(s.keeper, false) == 0
  {
    hide Accounted; hide Working; hide FillFlow; hide CommandFlow; hide Counted; hide Offered; hide KeptBelow;
  }
}
