/** The coverage invariant over whole requests and over every sequence of them. */
module CacheRequests {
  import opened Domain
  import opened Selection
  import opened SessionCalendar
  import opened Chunker
  import opened MarketCache
  import opened CacheCoverage

  lemma GreedyOfOne(d: SessionDate)
    requires IsDate(d)
    ensures Greedy([d]) == [[d]]
  {
    hide IsDate;
    GreedyCut([d], 1);
    assert [d][..1] == [d] && [d][1..] == [];
    GreedyOfNothing();
  }

  lemma FetchOneDay(c: Cache, d: SessionDate, h: seq<Candle>, now: Timestamp)
    requires IsDate(d)
    ensures AllDates([d])
    ensures FetchAndStore(c, [d], false, h, now) == StoreChunk(c, [d], ChunkBars(h, now, [d]))
  {
    hide IsDate; hide StoreChunk; hide ChunkBars; hide Greedy;
    GreedyOfOne(d);
    var bars := ChunkBars(h, now, [d]);
    assert [[d]][1..] == [];
    assert FetchChunks(c, [[d]], false, h, now) == FetchChunks(StoreChunk(c, [d], bars), [], false, h, now);
  }

  // ---------------------------------------------------------------- sealing yesterday's live day

  /** Sealing fetches the finished live day in full and appends it to the range; no key goes missing. */
  lemma SealKeeps(c: Cache, before: SessionDate, h: seq<Candle>, now: Timestamp, strict: bool)
    requires InHours(h) && Sound(c, before, h) && before <= Today(now)
    ensures var c1 := Seal(c, Today(now), h, now);
            && Sound(c1, Today(now), h) && Sealed(c1, Today(now))
            && (HoldsAll(c, h, strict) ==> HoldsAll(c1, h, strict))
            && (c1.row.Some? <==> c.row.Some?)
            && (c.row.Some? ==> First(c1) == First(c))
            && (StaleLive(c, Today(now)) ==> Last(c1) == c.row.value.live.value)
            && (!StaleLive(c, Today(now)) ==> c1 == c)
  {
    hide IsSession; hide IsDate; hide DayBars; hide HasBars; hide Today; hide InHours; hide ChunkBars;
    hide NoSessionBetween; hide PrevSession; hide FetchAndStore;
    var today := Today(now);
    if StaleLive(c, today) {
      var x := c.row.value.live.value;
      SessionIsDate(x);
      var w := FetchWrites(c, [x], false, h, now);
      assert x in [x];
      assert w == {x} by { OnlyOne(w, x, h); }
      SealedRow(c, x, w, h, now);
      if HoldsAll(c, h, strict) { SealHolds(c, Seal(c, today, h, now), x, h, strict); }
    }
  }

  lemma OnlyOne(w: set<SessionDate>, x: SessionDate, h: seq<Candle>)
    requires WrittenFrom(w, [x], false, h)
    ensures w == {x}
  {
    assert x in [x];
    forall d | d in w ensures d == x { assert d in [x]; }
  }

  lemma SealedRow(c: Cache, x: SessionDate, w: set<SessionDate>, h: seq<Candle>, now: Timestamp)
    requires StaleLive(c, Today(now)) && c.row.value.live == Some(x) && Sound(c, Today(now), h) && x < Today(now)
    requires IsDate(x) && w == {x} && Fetched(c, FetchAndStore(c, [x], false, h, now), w, h)
    ensures var c1 := Seal(c, Today(now), h, now);
            && Sound(c1, Today(now), h) && c1.row.Some? && c1.row.value.live == None
            && First(c1) == First(c) && Last(c1) == x
            && c1.store.Keys == c.store.Keys
  {
    hide IsSession; hide IsDate; hide DayBars; hide Today; hide FetchAndStore; hide NoSessionBetween; hide PrevSession;
    var c1 := FetchAndStore(c, [x], false, h, now);
    FetchGrows(c, c1, w, h);
    assert c1.store.Keys == c.store.Keys;
    assert First(c1) == First(c) && Last(c1) == x;
  }

  lemma SealHolds(c: Cache, c1: Cache, x: SessionDate, h: seq<Candle>, strict: bool)
    requires Ranged(c) && HoldsAll(c, h, strict) && Ranged(c1)
    requires First(c1) == First(c) && Last(c1) == x && c1.store.Keys == c.store.Keys
    requires x in c.store && NoSessionBetween(Last(c), x)
    ensures HoldsAll(c1, h, strict)
  {
    hide IsSession; hide HasBars;
    forall d | Needed(h, d, strict) && First(c1) <= d <= Last(c1) ensures d in c1.store {
      if d > Last(c) { assert d == x; }
    }
  }

  // ---------------------------------------------------------------- discovering the history

  lemma DiscoveredDay(h: seq<Candle>, now: Timestamp, closedTo: SessionDate, d: SessionDate)
    requires InHours(h) && IsDate(closedTo) && IsDate(d) && d <= closedTo < Today(now)
    ensures DayBars(Discovered(h, now, closedTo), d) == DayBars(h, d)
  {
    hide IsDate; hide FromIst; hide IstHm; hide IsSession;
    var p := ServedAt(now, 0, IstHm(closedTo, 23, 59));
    var q := UpToDate(closedTo);
    FilterTwice(h, p, q);
    FilterTwice(h, Both(p, q), OnDate(d));
    IstOrder(now, d);
    ClockGrows(d, d);
    ClockGrows(d, closedTo);
    forall c | c in h ensures Both(Both(p, q), OnDate(d))(c) == OnDate(d)(c) {
      IstOrder(c.ts, d);
    }
    FilterAgree(h, Both(Both(p, q), OnDate(d)), OnDate(d));
  }

  lemma DiscoveredMember(h: seq<Candle>, now: Timestamp, closedTo: SessionDate, c: Candle)
    requires IsDate(closedTo) && c in Discovered(h, now, closedTo)
    ensures c in h && FromIst(c.ts) <= closedTo
  {
    hide IsDate; hide FromIst; hide IstHm;
    FilterMember(h, ServedAt(now, 0, IstHm(closedTo, 23, 59)));
    FilterMember(Vendor(h, now, 0, IstHm(closedTo, 23, 59)), UpToDate(closedTo));
  }

  lemma DayMember(h: seq<Candle>, d: SessionDate)
    ensures HasBars(h, d) <==> exists c :: c in h && FromIst(c.ts) == d
  {
    hide FromIst;
    FilterMember(h, OnDate(d));
    if DayBars(h, d) != [] { assert DayBars(h, d)[0] in DayBars(h, d); }
  }

  /** Discovery stores every session from the vendor's first bar to the last closed one. */
  lemma DiscoverKeeps(c: Cache, closedTo: SessionDate, h: seq<Candle>, now: Timestamp, strict: bool)
    requires InHours(h) && c.row.None? && c.store == map[] && IsDate(closedTo) && closedTo < Today(now)
    ensures var c1 := Discover(c, closedTo, h, now);
            && Sound(c1, Today(now), h) && HoldsAll(c1, h, strict)
            && (c1.row.Some? ==> Last(c1) == closedTo && c1.row.value.live == None)
            && (forall d :: IsSession(d) && d <= closedTo && HasBars(h, d) ==> c1.row.Some? && First(c1) <= d)
  {
    hide IsDate; hide FromIst; hide IsSession; hide DayBars; hide Today; hide Discovered; hide HasBars; hide InHours;
    hide MinDate; hide PutDays; hide SessionList; hide Increasing; hide PrevSession;
    var bars := Discovered(h, now, closedTo);
    forall d | IsSession(d) && d <= closedTo && HasBars(h, d)
      ensures bars != [] && exists c :: c in bars && FromIst(c.ts) == d
    {
      SessionIsDate(d);
      DiscoveredDay(h, now, closedTo, d);
      DiscoveredHas(h, now, closedTo, d);
    }
    if bars != [] {
      MinDateIsLeast(bars);
      DiscoveredStore(c, closedTo, h, now);
    }
  }

  lemma DiscoveredStore(c: Cache, closedTo: SessionDate, h: seq<Candle>, now: Timestamp)
    requires InHours(h) && c.store == map[] && IsDate(closedTo) && closedTo < Today(now)
    requires Discovered(h, now, closedTo) != [] && IsDate(MinDate(Discovered(h, now, closedTo)))
    ensures var bars := Discovered(h, now, closedTo); var first := MinDate(bars);
      var s := PutDays(c.store, SessionList(first, closedTo), bars);
      && first <= closedTo
      && (forall d :: d in s <==> first <= d <= closedTo && IsSession(d))
      && (forall d :: d in s ==> s[d] == DayBars(h, d))
  {
    hide IsDate; hide FromIst; hide IsSession; hide DayBars; hide Today; hide Discovered; hide InHours; hide MinDate;
    hide PutDays;
    var bars := Discovered(h, now, closedTo);
    MinDateIsLeast(bars);
    var first := MinDate(bars);
    var x :| x in bars && FromIst(x.ts) == first;
    DiscoveredMember(h, now, closedTo, x);
    SessionListIsExact(first, closedTo);
    forall d | d in SessionList(first, closedTo) ensures DayBars(bars, d) == DayBars(h, d) {
      SessionIsDate(d);
      DiscoveredDay(h, now, closedTo, d);
    }
    PutDaysStores(c.store, SessionList(first, closedTo), bars, h);
  }

  lemma DiscoveredHas(h: seq<Candle>, now: Timestamp, closedTo: SessionDate, d: SessionDate)
    requires IsDate(closedTo) && HasBars(h, d) && DayBars(Discovered(h, now, closedTo), d) == DayBars(h, d)
    ensures exists c :: c in Discovered(h, now, closedTo) && FromIst(c.ts) == d
  {
    hide FromIst; hide Discovered;
    DayMember(Discovered(h, now, closedTo), d);
  }

  // ---------------------------------------------------------------- refreshing today

  /** Refreshing today stores a live day and never lets today into the closed range; the range stays
      complete exactly when no needed session lies between its end and today. */
  lemma RefreshIff(c: Cache, h: seq<Candle>, now: Timestamp, strict: bool)
    requires Sound(c, Today(now), h) && Sealed(c, Today(now)) && IsSession(Today(now))
    ensures var today := Today(now); var c1 := RefreshToday(c, today, h, now);
            && Sound(c1, today, h) && c1.row.Some? && c1.row.value.live == Some(today)
            && (HoldsAll(c1, h, strict) <==>
              HoldsAll(c, h, strict) && (c.row.Some? ==> NoneNeeded(h, Last(c), today, strict)))
  {
    hide IsSession; hide IsDate; hide DayBars; hide HasBars; hide PrevSession; hide ChunkBars; hide Today;
    hide FetchAndStore;
    hide StoreChunk; hide FromIst; hide Sound; hide HoldsAll; hide NoneNeeded; hide LiveFresh;
    var today := Today(now);
    SoundRange(c, today, h);
    if RowOf(c).live == Some(today) && LiveFresh(RowOf(c), now) {
      FreshLeavesNothing(c, today, h, strict);
    } else {
      FetchOneDay(c, today, h, now);
      var bars := ChunkBars(h, now, [today]);
      RefreshStep(c, today, bars, h, now);
      var c1 := RefreshToday(c, today, h, now);
      hide RefreshToday;
      RefreshSound(c, c1, today, bars, h);
      assert c1.store.Keys == c.store.Keys + {today};
      if c.row.Some? { RefreshHolds(c, c1, today, h, strict); }
      else { RefreshFirst(c, c1, today, h, strict); }
    }
  }

  lemma SoundRange(c: Cache, today: SessionDate, h: seq<Candle>)
    requires Sound(c, today, h)
    ensures c.row.Some? ==> Ranged(c) && First(c) <= today && Last(c) < today
  {
    hide IsSession; hide IsDate; hide DayBars; hide PrevSession;
  }

  /** A live copy of today means that the range ends at the previous session. */
  lemma FreshLeavesNothing(c: Cache, today: SessionDate, h: seq<Candle>, strict: bool)
    requires Sound(c, today, h) && RowOf(c).live == Some(today)
    ensures c.row.Some? && Ranged(c) && NoneNeeded(h, Last(c), today, strict)
  {
    hide IsSession; hide IsDate; hide DayBars; hide HasBars; hide PrevSession;
  }

  /** The first stored day of all is today: the closed range is still empty. */
  lemma RefreshFirst(c: Cache, c1: Cache, today: SessionDate, h: seq<Candle>, strict: bool)
    requires c.row.None? && IsSession(today) && today >= EPOCH
    requires Ranged(c1) && First(c1) == today && Last(c1) == PrevSession(today)
    ensures HoldsAll(c, h, strict) && HoldsAll(c1, h, strict)
  {
    PrevSessionIsGreatest(today);
    hide IsSession; hide IsDate; hide HasBars; hide PrevSession;
  }

  lemma RefreshStep(c: Cache, today: SessionDate, bars: seq<Candle>, h: seq<Candle>, now: Timestamp)
    requires IsDate(today) && today >= EPOCH && AllDates([today])
    requires FetchAndStore(c, [today], false, h, now) == StoreChunk(c, [today], bars)
    requires c.row.Some? ==> Ranged(c) && Last(c) < today
    ensures !(RowOf(c).live == Some(today) && LiveFresh(RowOf(c), now)) ==>
      Refreshed(c, RefreshToday(c, today, h, now), today, bars)
  {
    hide IsDate; hide PrevSession; hide DayBars; hide FetchAndStore;
    assert [today][..0] == [];
    assert PutDays(c.store, [today], bars) == c.store[today := DayBars(bars, today)];
    assert Widen(RowOf(c), [today]) == WidenDay(RowOf(c), today);
  }

  ghost predicate Refreshed(c: Cache, c1: Cache, today: SessionDate, bars: seq<Candle>)
    requires IsDate(today) && today >= EPOCH
  {
    && c1.store == c.store[today := DayBars(bars, today)]
    && Ranged(c1) && c1.row.value.sessions == |c1.store|
    && c1.row.value.live == Some(today)
    && First(c1) == (if Ranged(c) && First(c) <= today then First(c) else today)
    && Last(c1) == PrevSession(today)
  }

  lemma RefreshSound(c: Cache, c1: Cache, today: SessionDate, bars: seq<Candle>, h: seq<Candle>)
    requires Sound(c, today, h) && Sealed(c, today) && IsSession(today) && today >= EPOCH
    requires Refreshed(c, c1, today, bars)
    ensures Sound(c1, today, h)
  {
    PrevSessionIsGreatest(today);
    hide IsSession; hide IsDate; hide DayBars; hide PrevSession;
  }

  lemma RefreshHolds(c: Cache, c1: Cache, today: SessionDate, h: seq<Candle>, strict: bool)
    requires Sound(c, today, h) && Sealed(c, today) && c.row.Some? && Ranged(c1) && IsSession(today) && today >= EPOCH
    requires c1.store.Keys == c.store.Keys + {today} && First(c1) == First(c) && Last(c1) == PrevSession(today)
    ensures HoldsAll(c1, h, strict) <==> HoldsAll(c, h, strict) && NoneNeeded(h, Last(c), today, strict)
  {
    PrevSessionIsGreatest(today);
    hide IsSession; hide IsDate; hide DayBars; hide PrevSession; hide HasBars;
    if HoldsAll(c1, h, strict) {
      var last := Last(c1);
      forall d | Last(c) < d < today ensures !Needed(h, d, strict) {
        assert IsSession(d) ==> d <= last;
        assert d !in c.store.Keys && d !in c1.store.Keys;
      }
    }
  }

  // ---------------------------------------------------------------- whole requests

  /** The condition on a request, on the state left by sealing: its closed part leaves no gap towards
      the range, and a request for today alone finds the range already complete up to today. */
  ghost predicate RequestFits(c: Cache, now: Timestamp, from: Timestamp, to: Timestamp, h: seq<Candle>, strict: bool) {
    var a, b := FromIst(from), ClosedTo(now, to);
    && (from != 0 && a <= b ==> FillFits(c, a, b, h, strict))
    && (from != 0 && a > b && WantsToday(now, from, to) && Ranged(c) ==> NoneNeeded(h, Last(c), Today(now), strict))
  }

  /** A fill that reaches the last closed session leaves nothing needed before today. */
  lemma ReachesYesterday(c: Cache, c': Cache, w: set<SessionDate>, a: SessionDate, b: SessionDate, h: seq<Candle>,
                         today: SessionDate, strict: bool)
    requires Sound(c, today, h) && Sealed(c, today) && Sound(c', today, h) && Sealed(c', today)
    requires Grown(c, c', w) && FillWrites(c, w, a, b, h)
    requires a <= b || (c.row.Some? && a == First(c))
    requires IsSession(b) && b < today && NoSessionBetween(b, today)
    requires strict ==> Dense(h, today)
    ensures c'.row.Some? ==> NoneNeeded(h, Last(c'), today, strict)
  {
    hide IsSession; hide IsDate; hide PrevSession; hide DayBars; hide HasBars; hide FillWrites; hide Dense;
    if c'.row.Some? && c'.row.value.live.None? {
      if a <= b { RequestReached(c, c', w, a, b, h); }
      forall e | Last(c') < e < today ensures !Needed(h, e, strict) {
        if a <= e <= b { MissedBeforeToday(c, c', w, a, b, h, today, strict, e); }
      }
    }
  }

  lemma MissedBeforeToday(c: Cache, c': Cache, w: set<SessionDate>, a: SessionDate, b: SessionDate, h: seq<Candle>,
                          today: SessionDate, strict: bool, e: SessionDate)
    requires Grown(c, c', w) && FillWrites(c, w, a, b, h) && (c.row.None? || (Ranged(c) && First(c) <= Last(c)))
      && Ranged(c')
    requires a <= e <= b < today && Last(c') < e
    requires strict ==> Dense(h, today)
    ensures !Needed(h, e, strict)
  {
    hide IsSession; hide HasBars; hide FillWrites; hide Dense;
    if IsSession(e) {
      UnwrittenIsBare(c, w, a, b, h, e);
      var x := EarlierBars(c, w, a, b, h, First(c'));
      DenseFrom(h, today, x, e);
    }
  }

  /** After a request that ends on a session day, the range reaches into the request. */
  lemma RequestReached(c: Cache, c': Cache, w: set<SessionDate>, a: SessionDate, b: SessionDate, h: seq<Candle>)
    requires Grown(c, c', w) && FillWrites(c, w, a, b, h) && (c.row.None? || (Ranged(c) && First(c) <= Last(c)))
      && Ranged(c')
    requires IsSession(b) && a <= b
    ensures a <= Last(c')
  {
    hide IsSession; hide HasBars;
    if c.row.None? { assert Last(c') in w; }
    else { assert b in w || Leftish(c, b) || Covered(c, b); }
  }

  lemma ClosedToBounds(now: Timestamp, to: Timestamp)
    ensures IsDate(ClosedTo(now, to)) && ClosedTo(now, to) < Today(now)
    ensures FromIst(ClampTo(to, now)) >= Today(now) ==>
      IsSession(ClosedTo(now, to)) && NoSessionBetween(ClosedTo(now, to), Today(now))
    ensures FromIst(ClampTo(to, now)) < Today(now) ==>
      ClosedTo(now, to) <= FromIst(ClampTo(to, now))
        && forall d :: ClosedTo(now, to) < d <= FromIst(ClampTo(to, now)) ==> !IsSession(d)
  {
    PrevSessionIsGreatest(Today(now));
    hide IsSession; hide IsDate; hide FromIst; hide PrevSession;
  }

  /** The closed part of a request keeps the range complete exactly when it leaves no gap, and when it
      reaches yesterday nothing needed is left before today. */
  lemma ClosedIff(c: Cache, now: Timestamp, from: Timestamp, to: Timestamp, h: seq<Candle>, strict: bool)
    requires InHours(h) && Sound(c, Today(now), h) && Sealed(c, Today(now))
    requires strict ==> Dense(h, Today(now))
    ensures var c2 := EnsureClosed(c, now, from, to, h); var today := Today(now);
      && Sound(c2, today, h) && Sealed(c2, today)
      && (HoldsAll(c, h, strict) ==>
          (HoldsAll(c2, h, strict) <==>
            (from != 0 && FromIst(from) <= ClosedTo(now, to) ==>
              FillFits(c, FromIst(from), ClosedTo(now, to), h, strict))))
      && (WantsToday(now, from, to) && (from == 0 || FromIst(from) <= ClosedTo(now, to)) && c2.row.Some? ==>
        NoneNeeded(h, Last(c2), today, strict))
  {
    hide IsSession; hide IsDate; hide FromIst; hide PrevSession; hide DayBars; hide HasBars; hide ClosedTo;
    hide InHours; hide Today;
    hide Sound; hide Dense; hide HoldsAll; hide FillFits; hide FillClosed; hide Discover; hide Fetched; hide FillWrites;
    var today, b := Today(now), ClosedTo(now, to);
    ClosedToBounds(now, to);
    SoundRow(c, today, h);
    if from == 0 && c.row.None? {
      DiscoverKeeps(c, b, h, now, strict);
      var c2 := Discover(c, b, h, now);
      if WantsToday(now, from, to) && c2.row.Some? { YesterdayIsLast(h, b, today, strict); }
    } else if from == 0 || FromIst(from) <= b {
      var a := if from == 0 then First(c) else FromIstDate(from);
      var c2 := FillClosed(c, a, b, h, now);
      var w := FillClosedWrites(c, a, b, h, now);
      FillKeepsSound(c, c2, w, a, b, h, today);
      if HoldsAll(c, h, strict) { FillIff(c, c2, w, a, b, h, today, strict); }
      FetchGrows(c, c2, w, h);
      if from == 0 { FirstAlwaysFits(c, b, h, today, strict); }
      if WantsToday(now, from, to) { ReachesYesterday(c, c2, w, a, b, h, today, strict); }
    }
  }

  lemma SoundRow(c: Cache, today: SessionDate, h: seq<Candle>)
    requires Sound(c, today, h)
    ensures c.row.Some? ==> Ranged(c) && IsDate(First(c))
    ensures c.row.None? ==> c.store == map[]
    ensures RowDates(c)
  {
    hide PrevSession; hide DayBars;
    forall d ensures IsSession(d) ==> IsDate(d) { SessionIsDate(d); }
    hide IsSession; hide IsDate;
  }

  lemma SoundLater(c: Cache, before: SessionDate, today: SessionDate, h: seq<Candle>)
    requires Sound(c, before, h) && before <= today
    ensures Sound(c, today, h)
  {
    hide IsSession; hide IsDate; hide PrevSession; hide DayBars;
  }

  lemma YesterdayIsLast(h: seq<Candle>, b: SessionDate, today: SessionDate, strict: bool)
    requires NoSessionBetween(b, today)
    ensures NoneNeeded(h, b, today, strict)
  {
    hide IsSession; hide HasBars;
  }

  /** A request that starts where the range starts always fits. */
  lemma FirstAlwaysFits(c: Cache, b: SessionDate, h: seq<Candle>, today: SessionDate, strict: bool)
    requires Sound(c, today, h) && Sealed(c, today) && c.row.Some? && b < today
    ensures FillFits(c, First(c), b, h, strict)
  {
    hide IsSession; hide IsDate; hide PrevSession; hide DayBars; hide HasBars;
  }

  /** ensure_data_available keeps the coverage row truthful for every request, and keeps the range free
      of missing keys exactly when the request fits. */
  lemma EnsureIff(c: Cache, before: SessionDate, now: Timestamp, from: Timestamp, to: Timestamp, h: seq<Candle>,
                  strict: bool)
    requires InHours(h) && Sound(c, before, h) && before <= Today(now) && RowDates(c)
    requires strict ==> Dense(h, Today(now))
    ensures var c' := Ensure(c, now, from, to, h);
      && Sound(c', Today(now), h)
      && (HoldsAll(c, h, strict) ==>
        (HoldsAll(c', h, strict) <==> RequestFits(Seal(c, Today(now), h, now), now, from, to, h, strict)))
  {
    hide IsSession; hide IsDate; hide FromIst; hide PrevSession; hide DayBars; hide HasBars; hide ClosedTo;
    hide InHours; hide Today;
    hide Sound; hide Dense; hide HoldsAll; hide FillFits; hide Seal; hide EnsureClosed; hide RefreshToday;
    var today := Today(now);
    SealKeeps(c, before, h, now, strict);
    var c1 := Seal(c, today, h, now);
    SoundRow(c1, today, h);
    ClosedIff(c1, now, from, to, h, strict);
    var c2 := EnsureClosed(c1, now, from, to, h);
    SoundRow(c2, today, h);
    if WantsToday(now, from, to) {
      RefreshIff(c2, h, now, strict);
      if from != 0 && FromIst(from) > ClosedTo(now, to) { SkippedClosed(c1, now, from, to, h); }
    }
  }

  lemma SkippedClosed(c: Cache, now: Timestamp, from: Timestamp, to: Timestamp, h: seq<Candle>)
    requires RowDates(c) && from != 0 && FromIst(from) > ClosedTo(now, to)
    ensures EnsureClosed(c, now, from, to, h) == c
  {
    hide FromIst; hide ClosedTo; hide IsDate;
  }

  // ---------------------------------------------------------------- runs of requests

  datatype Request = Request(now: Timestamp, from: Timestamp, to: Timestamp)

  const EMPTY_CACHE := Cache(map[], None, 0)

  /** The cache after serving the requests in order, from an empty database. */
  ghost function Run(reqs: seq<Request>, h: seq<Candle>): (c: Cache)
    ensures RowDates(c)
  {
    if reqs == [] then EMPTY_CACHE
    else
      var n := |reqs| - 1;
      EnsureKeepsRowDates(Run(reqs[..n], h), reqs[n].now, reqs[n].from, reqs[n].to, h);
      Ensure(Run(reqs[..n], h), reqs[n].now, reqs[n].from, reqs[n].to, h)
  }

  ghost predicate ClockNeverTurnsBack(reqs: seq<Request>) {
    forall i, j :: 0 <= i < j < |reqs| ==> reqs[i].now <= reqs[j].now
  }

  /** Every request fits the state it meets. */
  ghost predicate AllFit(reqs: seq<Request>, h: seq<Candle>, strict: bool) {
    forall i :: 0 <= i < |reqs| ==>
      RequestFits(Seal(Run(reqs[..i], h), Today(reqs[i].now), h, reqs[i].now), reqs[i].now, reqs[i].from, reqs[i].to, h,
        strict)
  }

  ghost function LastToday(reqs: seq<Request>): SessionDate {
    if reqs == [] then EPOCH else Today(reqs[|reqs| - 1].now)
  }

  /** Over every run with a non-decreasing clock, the coverage row describes the store truthfully and
      today is never in the closed range, whatever is requested. */
  lemma {:induction false} RunSound(reqs: seq<Request>, h: seq<Candle>)
    requires InHours(h) && ClockNeverTurnsBack(reqs)
    ensures Sound(Run(reqs, h), LastToday(reqs), h)
  {
    hide IsSession; hide IsDate; hide PrevSession; hide DayBars; hide FromIst; hide Ensure; hide InHours; hide RowDates;
    if reqs != [] {
      var n := |reqs| - 1;
      RunSound(reqs[..n], h);
      TodayGrows(reqs, n);
      EnsureIff(Run(reqs[..n], h), LastToday(reqs[..n]), reqs[n].now, reqs[n].from, reqs[n].to, h, false);
    }
  }

  lemma TodayGrows(reqs: seq<Request>, n: nat)
    requires ClockNeverTurnsBack(reqs) && n == |reqs| - 1
    ensures LastToday(reqs[..n]) <= Today(reqs[n].now)
    ensures ClockNeverTurnsBack(reqs[..n])
  {
    hide DayNumber;
    if n > 0 { IstMonotone(reqs[n - 1].now, reqs[n].now); }
  }

  lemma IstMonotone(a: Timestamp, b: Timestamp)
    requires a <= b
    ensures FromIst(a) <= FromIst(b)
  {
    hide DayNumber; hide FromIst; hide IsDate;
    IstOrder(a, FromIstDate(b));
    IstOrder(b, FromIstDate(b));
  }

  lemma DenseEarlier(h: seq<Candle>, a: SessionDate, b: SessionDate)
    requires Dense(h, b) && a <= b
    ensures Dense(h, a)
  {
    hide IsSession; hide HasBars;
  }

  /** Over every run whose requests fit, coverage never lists a needed day without a key. */
  lemma {:induction false} RunHoldsAll(reqs: seq<Request>, h: seq<Candle>, strict: bool)
    requires InHours(h) && ClockNeverTurnsBack(reqs) && AllFit(reqs, h, strict)
    requires strict ==> Dense(h, LastToday(reqs))
    ensures HoldsAll(Run(reqs, h), h, strict)
  {
    hide IsSession; hide IsDate; hide PrevSession; hide DayBars; hide FromIst; hide Ensure; hide InHours; hide RowDates;
    hide Dense; hide HasBars; hide Sound; hide RequestFits; hide HoldsAll; hide Seal;
    if reqs == [] {
      EmptyHoldsAll(h, strict);
    } else {
      var n := |reqs| - 1;
      TodayGrows(reqs, n);
      if strict { DenseEarlier(h, LastToday(reqs[..n]), LastToday(reqs)); }
      forall i | 0 <= i < n ensures reqs[..n][..i] == reqs[..i] {}
      RunHoldsAll(reqs[..n], h, strict);
      RunSound(reqs[..n], h);
      EnsureIff(Run(reqs[..n], h), LastToday(reqs[..n]), reqs[n].now, reqs[n].from, reqs[n].to, h, strict);
    }
  }

  lemma EmptyHoldsAll(h: seq<Candle>, strict: bool)
    ensures HoldsAll(EMPTY_CACHE, h, strict)
  {}
}
