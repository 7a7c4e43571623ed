/** DataFetchService over one (ticker, resolution) series: every method is proved equal to the
    function that specifies it, so all cache theorems speak about this code. */
module DataFetch {
  import opened Domain
  import opened Selection
  import opened SessionCalendar
  import opened Chunker
  import opened MarketCache
  import opened CacheLog
  import CacheCoverage
  import CacheRequests
  import CacheSafety
  import CacheServe

  lemma {:induction false} LeastExists(s: set<int>) returns (d: int)
    requires s != {}
    ensures d in s && forall e :: e in s ==> d <= e
  {
    if forall e :: e !in s { assert false; }
    d :| d in s;
    if s != {d} {
      var rest := s - {d};
      var least := LeastExists(rest);
      forall e | e in s ensures e == d || e in rest {}
      if least < d { d := least; }
    }
  }

  class DataFetchService {
    const vendor: seq<Candle>
    var store: map<SessionDate, seq<Candle>>
    var coverage: Option<Coverage>
    var vendorFetches: nat
    /** Every single write to the store or to the coverage row. */
    ghost var log: seq<Write>

    constructor (vendor: seq<Candle>)
      ensures this.vendor == vendor && State() == Cache(map[], None, 0) && log == []
    {
      this.vendor := vendor;
      store, coverage, vendorFetches := map[], None, 0;
      log := [];
    }

    function State(): Cache
      reads this
    {
      Cache(store, coverage, vendorFetches)
    }

    method AskVendor(now: Timestamp, lo: int, hi: int) returns (bars: seq<Candle>)
      ensures bars == Vendor(vendor, now, lo, hi)
    {
      bars := [];
      for i := 0 to |vendor|
        invariant bars == Filter(vendor[..i], ServedAt(now, lo, hi))
      {
        FilterStep(vendor, i, ServedAt(now, lo, hi));
        var c := vendor[i];
        if c.ts <= now && Within(c.ts, lo, hi) { bars := bars + [c]; }
      }
      assert vendor[..|vendor|] == vendor;
    }

    static method ByDay(bars: seq<Candle>) returns (byDay: map<SessionDate, seq<Candle>>)
      ensures forall d :: (if d in byDay then byDay[d] else []) == DayBars(bars, d)
    {
      hide FromIst; hide Filter;
      byDay := map[];
      forall d ensures DayBars([], d) == [] { FilterNone<Candle>([], OnDate(d)); }
      assert bars[..0] == [];
      for i := 0 to |bars|
        invariant forall d :: (if d in byDay then byDay[d] else []) == DayBars(bars[..i], d)
      {
        var day := FromIst(bars[i].ts);
        forall d ensures DayBars(bars[..i + 1], d) == DayBars(bars[..i], d) + (if day == d then [bars[i]] else []) {
          FilterStep(bars, i, OnDate(d));
        }
        byDay := byDay[day := (if day in byDay then byDay[day] else []) + [bars[i]]];
      }
      assert bars[..|bars|] == bars;
    }

    /** Writing the coverage row; the number of stored sessions is recounted. */
    method PersistCoverage(row: Coverage)
      modifies this
      ensures State() == Persist(old(State()), row)
      ensures log == old(log) + [Row(State())]
    {
      coverage := Some(row.(sessions := |store|));
      log := log + [Row(State())];
    }

    method PutSession(date: SessionDate, bars: seq<Candle>)
      modifies this
      ensures State() == old(State()).(store := old(store)[date := bars])
      ensures log == old(log) + [Blob(date, bars, State())]
    {
      store := store[date := bars];
      log := log + [Blob(date, bars, State())];
    }

    /** The days from the first one with bars on. */
    static method FromFirstWithBars(chunk: seq<SessionDate>, bars: seq<Candle>, byDay: map<SessionDate, seq<Candle>>)
      returns (days: seq<SessionDate>)
      requires forall d :: (if d in byDay then byDay[d] else []) == DayBars(bars, d)
      ensures days == DropBare(chunk, bars)
    {
      hide DayBars;
      var i := 0;
      while i < |chunk| && !(chunk[i] in byDay && byDay[chunk[i]] != [])
        invariant i <= |chunk|
        invariant DropBare(chunk, bars) == DropBare(chunk[i..], bars)
      {
        i := i + 1;
      }
      days := chunk[i..];
    }

    method StoreDays(days: seq<SessionDate>, bars: seq<Candle>, byDay: map<SessionDate, seq<Candle>>)
      requires days != []
      requires forall d :: (if d in byDay then byDay[d] else []) == DayBars(bars, d)
      modifies this
      ensures store == PutDays(old(store), days, bars) && vendorFetches == old(vendorFetches)
      ensures coverage == Some(Widen(RowOf(old(State())), days).(sessions := |store|))
      ensures log == old(log) + PutsLog(old(State()), days, bars) + [Row(State())]
    {
      hide DayBars; hide PutDays; hide PutsLog;
      PutAll(days, bars, byDay);
      var row := WidenOver(if coverage.Some? then coverage.value else NO_COVERAGE, days);
      PersistCoverage(row);
    }

    static method WidenOver(row: Coverage, days: seq<SessionDate>) returns (wide: Coverage)
      ensures wide == Widen(row, days)
    {
      wide := row;
      assert days[..0] == [];
      for i := 0 to |days|
        invariant wide == Widen(row, days[..i])
      {
        assert days[..i + 1][..i] == days[..i];
        var d := days[i];
        if wide.first.None? || d < wide.first.value { wide := wide.(first := Some(d)); }
        if wide.last.None? || d > wide.last.value { wide := wide.(last := Some(d)); }
      }
      assert days[..|days|] == days;
    }

    /** fetch_and_store: the store and the row after it, and after each of its writes. */
    method FetchAndStore(days: seq<SessionDate>, leftExtend: bool, now: Timestamp)
      requires AllDates(days)
      modifies this
      ensures State() == MarketCache.FetchAndStore(old(State()), days, leftExtend, vendor, now)
      ensures log == old(log) + DaysLog(old(State()), days, leftExtend, vendor, now)
    {
      hide IsDate; hide DayBars; hide ChunkBars; hide Greedy; hide StoreChunk; hide ChunkLog; hide DropBare;
      hide AllDates;
      GreedyChunks(days);
      var chunks := ChunkDays(days);
      ghost var c0, w0 := State(), log;
      assert chunks[0..] == chunks;
      for i := 0 to |chunks|
        invariant FetchChunks(State(), chunks[i..], leftExtend, vendor, now) ==
          FetchChunks(c0, chunks, leftExtend, vendor, now)
        invariant log + FetchLog(State(), chunks[i..], leftExtend, vendor, now) ==
          w0 + FetchLog(c0, chunks, leftExtend, vendor, now)
      {
        ghost var rest := chunks[i..];
        assert rest[0] == chunks[i] && rest[1..] == chunks[i + 1..];
        StoreOneChunk(chunks[i], leftExtend, now);
      }
      assert chunks[|chunks|..] == [];
    }

    method StoreOneChunk(chunk: seq<SessionDate>, leftExtend: bool, now: Timestamp)
      requires chunk != [] && AllDates(chunk)
      modifies this
      ensures var bars := ChunkBars(vendor, now, chunk); var w := ToWrite(chunk, bars, leftExtend);
        State() == StoreChunk(old(State()), w, bars) && log == old(log) + ChunkLog(old(State()), w, bars)
    {
      hide IsDate; hide DayBars; hide PutDays; hide Widen; hide DropBare; hide IstHm; hide PutsLog;
      hide StoreChunk; hide ChunkLog; hide Vendor;
      vendorFetches := vendorFetches + 1;
      var bars := AskVendor(now, IstHm(chunk[0], 0, 0), IstHm(chunk[|chunk| - 1], 23, 59));
      var byDay := ByDay(bars);
      var days := chunk;
      if leftExtend {
        days := FromFirstWithBars(chunk, bars, byDay);
      }
      ChunkIs(old(State()), days, bars);
      if days == [] { return; }
      StoreDays(days, bars, byDay);
    }

    static lemma ChunkIs(c: Cache, w: seq<SessionDate>, bars: seq<Candle>)
      ensures var c1 := c.(fetches := c.fetches + 1);
        if w == [] then StoreChunk(c, w, bars) == c1 && ChunkLog(c, w, bars) == []
        else
          var store := PutDays(c.store, w, bars);
          && StoreChunk(c, w, bars) == Cache(store, Some(Widen(RowOf(c), w).(sessions := |store|)), c.fetches + 1)
          && ChunkLog(c, w, bars) == PutsLog(c1, w, bars) + [Row(StoreChunk(c, w, bars))]
    {
      hide PutsLog; hide Widen; hide DayBars;
    }

    method SealStaleLive(today: SessionDate, todayIsSession: bool, now: Timestamp)
      requires RowDates(State()) && IsDate(today) && todayIsSession == IsSession(today)
      modifies this
      ensures State() == Seal(old(State()), today, vendor, now)
      ensures log == old(log) + SealLog(old(State()), today, vendor, now)
    {
      hide IsDate; hide IsSession; hide MarketCache.FetchAndStore; hide DaysLog;
      if coverage.None? || coverage.value.live.None? { return; }
      var live := coverage.value.live.value;
      if todayIsSession && live == today { return; }
      FetchAndStore([live], false, now);
      var row := if coverage.Some? then coverage.value else NO_COVERAGE;
      if row.last.None? || live > row.last.value { row := row.(last := Some(live)); }
      if row.first.None? { row := row.(first := Some(live)); }
      PersistCoverage(row.(live := None));
    }

    static lemma FetchNothing(c: Cache, leftExtend: bool, h: seq<Candle>, now: Timestamp)
      ensures MarketCache.FetchAndStore(c, [], leftExtend, h, now) == c && DaysLog(c, [], leftExtend, h, now) == []
    {
      GreedyOfNothing();
    }

    /** Sort the uncovered requested days into those before the range and the others. */
    method SplitDays(requested: seq<SessionDate>, covered: seq<SessionDate>)
      returns (left: seq<SessionDate>, rest: seq<SessionDate>)
      requires forall d :: d in requested ==> (d in covered <==> Covered(State(), d))
      ensures left == Filter(requested, IsLeft(State())) && rest == Filter(requested, IsRest(State()))
    {
      hide Covered;
      left, rest := [], [];
      ghost var c := State();
      assert requested[..0] == [];
      for i := 0 to |requested|
        invariant left == Filter(requested[..i], IsLeft(c)) && rest == Filter(requested[..i], IsRest(c))
      {
        var d := requested[i];
        FilterStep(requested, i, IsLeft(c));
        FilterStep(requested, i, IsRest(c));
        if d !in covered {
          if coverage.Some? && coverage.value.first.Some? && d < coverage.value.first.value {
            left := left + [d];
          } else {
            rest := rest + [d];
          }
        }
      }
      assert requested[..|requested|] == requested;
    }

    method FillClosed(lo: SessionDate, hi: SessionDate, now: Timestamp)
      requires RowDates(State()) && IsDate(lo)
      modifies this
      ensures State() == MarketCache.FillClosed(old(State()), lo, hi, vendor, now)
      ensures log == old(log) + FillLog(old(State()), lo, hi, vendor, now)
    {
      hide IsDate; hide IsSession; hide AllDates; hide Increasing; hide FetchChunks; hide Greedy; hide SessionList;
      hide Filter; hide DaysLog; hide MarketCache.FetchAndStore;
      ghost var c := State();
      var requested := SessionDays(lo, hi);
      PickedDates(lo, hi, IsLeft(c));
      PickedDates(lo, hi, IsRest(c));
      SessionListIsExact(lo, hi);
      var covered: seq<SessionDate> := [];
      if coverage.Some? && coverage.value.first.Some? && coverage.value.last.Some? {
        covered := SessionDays(coverage.value.first.value, coverage.value.last.value);
        SessionListIsExact(coverage.value.first.value, coverage.value.last.value);
      }
      var hadFirst := coverage.Some? && coverage.value.first.Some?;
      var left, rest := SplitDays(requested, covered);
      FetchBoth(left, rest, !hadFirst, now);
    }

    method FetchBoth(left: seq<SessionDate>, rest: seq<SessionDate>, leftExtend: bool, now: Timestamp)
      requires AllDates(left) && AllDates(rest)
      modifies this
      ensures var c1 := MarketCache.FetchAndStore(old(State()), left, true, vendor, now);
        && State() == MarketCache.FetchAndStore(c1, rest, leftExtend, vendor, now)
        && log == old(log) + (DaysLog(old(State()), left, true, vendor, now)
          + DaysLog(c1, rest, leftExtend, vendor, now))
    {
      hide AllDates; hide MarketCache.FetchAndStore; hide DaysLog;
      FetchNothing(State(), true, vendor, now);
      if left != [] { FetchAndStore(left, true, now); }
      FetchNothing(State(), leftExtend, vendor, now);
      if rest != [] { FetchAndStore(rest, leftExtend, now); }
    }

    static lemma DiscoverIs(c: Cache, closedTo: SessionDate, h: seq<Candle>, now: Timestamp, bars: seq<Candle>)
      requires IsDate(closedTo) && bars == Discovered(h, now, closedTo)
      ensures bars == [] ==> MarketCache.Discover(c, closedTo, h, now) == c.(fetches := c.fetches + 1)
      ensures bars == [] ==> DiscoverLog(c, closedTo, h, now) == []
      ensures bars != [] ==> IsDate(MinDate(bars))
      ensures bars != [] ==>
        DiscoverLog(c, closedTo, h, now) ==
        PutsLog(c.(fetches := c.fetches + 1), SessionList(MinDate(bars), closedTo), bars)
        + [Row(MarketCache.Discover(c, closedTo, h, now))]
      ensures bars != [] ==>
        MarketCache.Discover(c, closedTo, h, now) ==
        Persist(c.(fetches := c.fetches + 1, store := PutDays(c.store, SessionList(MinDate(bars), closedTo), bars)),
                NO_COVERAGE.(first := Some(MinDate(bars)), last := Some(closedTo)))
    {
      hide IsDate; hide Discovered; hide PutDays; hide MinDate; hide SessionList; hide PutsLog;
      if bars != [] { MinDateIsLeast(bars); }
    }

    static method KeepUpTo(all: seq<Candle>, closedTo: SessionDate) returns (bars: seq<Candle>)
      ensures bars == Filter(all, UpToDate(closedTo))
    {
      hide FromIst;
      bars := [];
      assert all[..0] == [];
      for i := 0 to |all|
        invariant bars == Filter(all[..i], UpToDate(closedTo))
      {
        FilterStep(all, i, UpToDate(closedTo));
        if FromIst(all[i].ts) <= closedTo { bars := bars + [all[i]]; }
      }
      assert all[..|all|] == all;
    }

    method DiscoverClosed(closedTo: SessionDate, now: Timestamp)
      requires IsDate(closedTo)
      modifies this
      ensures State() == MarketCache.Discover(old(State()), closedTo, vendor, now)
      ensures log == old(log) + DiscoverLog(old(State()), closedTo, vendor, now)
    {
      hide IsDate; hide IsSession; hide DayBars; hide FromIst; hide IstHm; hide SessionList; hide MarketCache.Discover;
      hide MinDate; hide DiscoverLog; hide PutsLog;
      vendorFetches := vendorFetches + 1;
      var all := AskVendor(now, 0, IstHm(closedTo, 23, 59));
      var bars := KeepUpTo(all, closedTo);
      assert bars == Discovered(vendor, now, closedTo);
      DiscoverIs(old(State()), closedTo, vendor, now, bars);
      if bars == [] {
        return;
      }
      MinDateIsLeast(bars);
      var byDay := ByDay(bars);
      var first := MinDate(bars);
      var days := SessionDays(first, closedTo);
      PutAll(days, bars, byDay);
      PersistCoverage(NO_COVERAGE.(first := Some(first), last := Some(closedTo)));
    }

    method PutAll(days: seq<SessionDate>, bars: seq<Candle>, byDay: map<SessionDate, seq<Candle>>)
      requires forall d :: (if d in byDay then byDay[d] else []) == DayBars(bars, d)
      modifies this
      ensures State() == old(State()).(store := PutDays(old(store), days, bars))
      ensures log == old(log) + PutsLog(old(State()), days, bars)
    {
      hide DayBars; hide PutsLog;
      ghost var c := State();
      assert days[..0] == [];
      for i := 0 to |days|
        invariant State() == c.(store := PutDays(c.store, days[..i], bars))
        invariant log == old(log) + PutsLog(c, days[..i], bars)
      {
        assert days[..i + 1][..i] == days[..i];
        PutsMore(c, days, bars, i);
        var d := days[i];
        PutSession(d, if d in byDay then byDay[d] else []);
      }
      assert days[..|days|] == days;
    }

    static lemma OneDayIsOneCall(c: Cache, d: SessionDate, h: seq<Candle>, now: Timestamp)
      requires IsDate(d)
      ensures MarketCache.FetchAndStore(c, [d], false, h, now).fetches == c.fetches + 1
    {
      hide IsDate; hide ChunkBars; hide PutDays; hide Widen;
      CacheRequests.FetchOneDay(c, d, h, now);
    }

    method RefreshToday(today: SessionDate, now: Timestamp)
      requires IsDate(today) && today >= EPOCH
      modifies this
      ensures State() == MarketCache.RefreshToday(old(State()), today, vendor, now)
      ensures log == old(log) + RefreshLog(old(State()), today, vendor, now)
      ensures var row := RowOf(old(State()));
        if row.live == Some(today) && row.fetchedAt.Some? && now - row.fetchedAt.value <= 1_800_000_000_000
        then State() == old(State()) && log == old(log)
        else
          && vendorFetches == old(vendorFetches) + 1 && RowOf(State()).live == Some(today)
          && RowOf(State()).fetchedAt == Some(now)
    {
      hide IsDate; hide PrevSession; hide MarketCache.FetchAndStore; hide DaysLog;
      OneDayIsOneCall(State(), today, vendor, now);
      var row := if coverage.Some? then coverage.value else NO_COVERAGE;
      if row.live == Some(today) && LiveFresh(row, now) { return; }
      FetchAndStore([today], false, now);
      row := if coverage.Some? then coverage.value else NO_COVERAGE;
      if row.last == Some(today) {
        var prev := PrevSessionDay(today);
        row := row.(last := Some(prev));
      }
      PersistCoverage(row.(live := Some(today), fetchedAt := Some(now)));
    }

    /** ensure_data_available at time now. */
    method EnsureDataAvailable(now: Timestamp, from: Timestamp, to: Timestamp)
      requires RowDates(State())
      modifies this
      ensures State() == Ensure(old(State()), now, from, to, vendor) && RowDates(State())
      ensures log == old(log) + EnsureLog(old(State()), now, from, to, vendor)
    {
      hide IsDate; hide IsSession; hide FromIst; hide PrevSession; hide Seal; hide MarketCache.RefreshToday;
      hide RowDates;
      hide EnsureClosed; hide SealLog; hide ClosedLog; hide RefreshLog;
      EnsureKeepsRowDates(State(), now, from, to, vendor);
      SealKeepsRowDates(State(), Today(now), vendor, now);
      var toUse := if to == 0 || to > now then now else to;
      var today := FromIst(now);
      assert today == Today(now);
      var todayIsSession := IsSession(today);
      var closedEnd := LastClosedSession(today);
      SealStaleLive(today, todayIsSession, now);
      var toDate := FromIst(toUse);
      var closedTo := closedEnd;
      if toDate < closedTo { closedTo := toDate; }
      assert closedTo == ClosedTo(now, to);
      EnsureClosedTo(closedTo, now, from, to);
      if todayIsSession && toDate >= today && (from == 0 || FromIst(from) <= today) {
        RefreshToday(today, now);
      }
    }

    /** The closed part of a request. */
    method EnsureClosedTo(closedTo: SessionDate, now: Timestamp, from: Timestamp, to: Timestamp)
      requires RowDates(State()) && closedTo == ClosedTo(now, to)
      modifies this
      ensures State() == EnsureClosed(old(State()), now, from, to, vendor)
      ensures log == old(log) + ClosedLog(old(State()), now, from, to, vendor)
    {
      hide FillLog; hide DiscoverLog; hide IsDate; hide FromIst; hide MarketCache.FillClosed; hide MarketCache.Discover;
      hide RowDates; hide ClosedTo;
      if from == 0 {
        if coverage.Some? && coverage.value.first.Some? {
          RangeIsDated(State());
          FillClosed(coverage.value.first.value, closedTo, now);
        } else {
          DiscoverClosed(closedTo, now);
        }
      } else {
        var fromDate := FromIstDate(from);
        if fromDate <= closedTo { FillClosed(fromDate, closedTo, now); }
      }
    }

    static lemma RangeIsDated(c: Cache)
      requires RowDates(c) && c.row.Some? && c.row.value.first.Some?
      ensures IsDate(c.row.value.first.value)
    {}

    /** The stored dates between lo and hi in key order; lo = 0 means from the first key. */
    method ListSessions(lo: SessionDate, hi: SessionDate) returns (dates: seq<SessionDate>)
      ensures Increasing(dates)
      ensures forall d :: d in dates <==> d in store && (lo == 0 || lo <= d) && d <= hi
    {
      var keys := set d | d in store && (lo == 0 || lo <= d) && d <= hi;
      ghost var all := keys;
      dates := [];
      while keys != {}
        invariant keys <= all
        invariant Increasing(dates)
        invariant forall d :: d in dates <==> d in all && d !in keys
        invariant forall d, e :: d in dates && e in keys ==> d < e
      {
        ghost var least := LeastExists(keys);
        var d :| d in keys && forall e :: e in keys ==> d <= e;
        forall i | 0 <= i < |dates| ensures dates[i] < d { assert dates[i] in dates; }
        dates, keys := dates + [d], keys - {d};
      }
    }

    /** load_bars: make the range available, then serve it from the store alone. */
    method LoadBars(now: Timestamp, from: Timestamp, to: Timestamp)
      returns (bars: seq<Candle>, ghost dates: seq<SessionDate>)
      requires RowDates(State())
      modifies this
      ensures State() == Ensure(old(State()), now, from, to, vendor) && RowDates(State())
      ensures log == old(log) + EnsureLog(old(State()), now, from, to, vendor)
      ensures Lists(dates, store, now, from, to)
      ensures forall d :: d in dates ==> d in store
      ensures bars == Serve(store, dates, from, to)
    {
      hide FromIst; hide RowDates; hide Ensure; hide IsDate;
      EnsureDataAvailable(now, from, to);
      var toUse := if to == 0 || to > now then now else to;
      FromIstPositive(from);
      var listed := ListSessions(if from == 0 then 0 else FromIst(from), FromIst(toUse));
      dates := listed;
      bars := ServeDates(store, listed, from, to);
    }

    /** load_bars on a service that has met only fitting requests since its database was empty: it
        answers with exactly the vendor's bars of the range, today's at most half an hour old. */
    method LoadBarsAfter(ghost met: seq<CacheRequests.Request>, now: Timestamp, from: Timestamp, to: Timestamp)
      returns (bars: seq<Candle>)
      requires CacheCoverage.InHours(vendor) && CacheServe.Chronological(vendor)
      requires State() == CacheRequests.Run(met, vendor) && CacheRequests.AllFit(met, vendor, false)
      requires CacheRequests.ClockNeverTurnsBack(met + [CacheRequests.Request(now, from, to)])
      requires from != 0 || coverage.None?
      modifies this
      ensures State() == CacheRequests.Run(met + [CacheRequests.Request(now, from, to)], vendor)
      ensures old(log) == CacheSafety.RunLog(met, vendor) ==>
        log == CacheSafety.RunLog(met + [CacheRequests.Request(now, from, to)], vendor)
      ensures bars == CacheServe.Answer(vendor, now, from, to, CacheServe.AsOf(State(), now))
      ensures WantsToday(now, from, to) ==> now - CacheServe.AsOf(State(), now) <= 1_800_000_000_000
    {
      hide Ensure; hide EnsureLog; hide Serve; hide Lists; hide WantsToday; hide RowDates;
      hide CacheRequests.RequestFits;
      hide CacheServe.Answer; hide CacheServe.AsOf; hide CacheServe.Chronological; hide CacheCoverage.InHours;
      hide IsDate;
      ghost var reqs := met + [CacheRequests.Request(now, from, to)];
      ghost var n := |reqs| - 1;
      assert reqs[..n] == met && reqs[n] == CacheRequests.Request(now, from, to);
      ghost var dates;
      bars, dates := LoadBars(now, from, to);
      CacheServe.RunMeets(reqs, vendor, n);
      CacheServe.RunServes(reqs, vendor, dates);
    }

    static method ServeDates(store: map<SessionDate, seq<Candle>>, dates: seq<SessionDate>, from: Timestamp,
                             to: Timestamp)
      returns (bars: seq<Candle>)
      requires forall d :: d in dates ==> d in store
      ensures bars == Serve(store, dates, from, to)
    {
      hide Filter; hide Inside;
      bars := [];
      for i := 0 to |dates|
        invariant forall d :: d in dates[..i] ==> d in store
        invariant bars == Serve(store, dates[..i], from, to)
      {
        var d := dates[i];
        assert dates[..i + 1][..i] == dates[..i] && d in dates;
        var kept := BarsInside(store[d], from, to);
        bars := bars + kept;
      }
      assert dates[..|dates|] == dates;
    }

    static method BarsInside(blob: seq<Candle>, from: Timestamp, to: Timestamp) returns (bars: seq<Candle>)
      ensures bars == Filter(blob, Inside(from, to))
    {
      bars := [];
      assert blob[..0] == [];
      for k := 0 to |blob|
        invariant bars == Filter(blob[..k], Inside(from, to))
      {
        FilterStep(blob, k, Inside(from, to));
        var bar := blob[k];
        if !(from != 0 && bar.ts < from) && !(to != 0 && bar.ts > to) { bars := bars + [bar]; }
      }
      assert blob[..|blob|] == blob;
    }

    static lemma FromIstPositive(ts: Timestamp)
      ensures FromIst(ts) > 0
    {}
  }
}
