/** The cache is transparent: what it serves is what the vendor would have served. */
module CacheServe {
  import opened Domain
  import opened Selection
  import opened SessionCalendar
  import opened Chunker
  import opened MarketCache
  import opened CacheCoverage
  import opened CacheRequests

  ghost predicate Chronological(h: seq<Candle>) {
    forall i, j :: 0 <= i <= j < |h| ==> h[i].ts <= h[j].ts
  }

  function InDates(dates: seq<SessionDate>): Candle -> bool {
    (c: Candle) => FromIst(c.ts) in dates
  }

  /** In a sorted history the bars of the latest date come last. */
  lemma {:induction false} SplitLastDate(h: seq<Candle>, dates: seq<SessionDate>, d: SessionDate)
    requires Chronological(h) && forall e :: e in dates ==> e < d
    ensures Filter(h, InDates(dates + [d])) == Filter(h, InDates(dates)) + Filter(h, OnDate(d))
  {
    hide FromIst;
    if h != [] {
      var n := |h| - 1;
      var x := h[n];
      SplitLastDate(h[..n], dates, d);
      if FromIst(x.ts) in dates {
        forall c | c in h[..n] ensures !OnDate(d)(c) { IstMonotone(c.ts, x.ts); }
        FilterNone(h[..n], OnDate(d));
      }
    }
  }

  /** Serving full days in date order is selecting from the history. */
  lemma {:induction false} ServeSelects(store: map<SessionDate, seq<Candle>>, dates: seq<SessionDate>, from: Timestamp,
                                        to: Timestamp, h: seq<Candle>)
    requires Chronological(h) && Increasing(dates)
    requires forall d :: d in dates ==> d in store && store[d] == DayBars(h, d)
    ensures Serve(store, dates, from, to) == Filter(Filter(h, InDates(dates)), Inside(from, to))
  {
    hide FromIst; hide Chronological; hide Inside; hide OnDate;
    if dates == [] {
      FilterNone(h, InDates(dates));
    } else {
      var n := |dates| - 1;
      var d := dates[n];
      assert d in dates;
      assert dates == dates[..n] + [d];
      ServeSelects(store, dates[..n], from, to, h);
      SplitLastDate(h, dates[..n], d);
      FilterConcat(Filter(h, InDates(dates[..n])), Filter(h, OnDate(d)), Inside(from, to));
    }
  }

  // ---------------------------------------------------------------- today's bars

  function UpTo(t: Timestamp): Candle -> bool {
    (c: Candle) => c.ts <= t
  }

  /** Of today's bars only those up to t. */
  function Seen(today: SessionDate, t: Timestamp): Candle -> bool {
    (c: Candle) => FromIst(c.ts) == today ==> c.ts <= t
  }

  /** The live day holds the bars that existed when it was last fetched. */
  ghost predicate LiveIs(c: Cache, now: Timestamp, h: seq<Candle>) {
    c.row.Some? && c.row.value.live.Some? ==>
      && c.row.value.fetchedAt.Some? && c.row.value.fetchedAt.value <= now
      && c.row.value.live.value in c.store
      && c.store[c.row.value.live.value] ==
        Filter(DayBars(h, c.row.value.live.value), UpTo(c.row.value.fetchedAt.value))
  }

  /** The time up to which the cache knows today's bars. */
  function AsOf(c: Cache, now: Timestamp): Timestamp {
    if c.row.Some? && c.row.value.live == Some(Today(now)) && c.row.value.fetchedAt.Some?
    then c.row.value.fetchedAt.value else now
  }

  /** Fetching today returns today's bars that exist by now. */
  lemma TodayBars(h: seq<Candle>, now: Timestamp)
    requires InHours(h)
    ensures DayBars(ChunkBars(h, now, [Today(now)]), Today(now)) == Filter(DayBars(h, Today(now)), UpTo(now))
  {
    hide IsDate; hide FromIst; hide IstHm; hide IsSession;
    var today := Today(now);
    var p := ServedAt(now, IstHm(today, 0, 0), IstHm(today, 23, 59));
    FilterTwice(h, p, OnDate(today));
    FilterTwice(h, OnDate(today), UpTo(now));
    forall c | c in h ensures Both(p, OnDate(today))(c) == Both(OnDate(today), UpTo(now))(c) {
      IstOrder(c.ts, today);
    }
    FilterAgree(h, Both(p, OnDate(today)), Both(OnDate(today), UpTo(now)));
  }

  lemma SealKeepsLive(c: Cache, h: seq<Candle>, now: Timestamp)
    requires RowDates(c) && LiveIs(c, now, h)
    ensures LiveIs(Seal(c, Today(now), h, now), now, h)
  {
    hide IsSession; hide IsDate; hide DayBars; hide Today; hide FetchAndStore; hide Filter;
  }

  lemma FillKeepsLive(c: Cache, c': Cache, w: set<SessionDate>, now: Timestamp, h: seq<Candle>)
    requires Sealed(c, Today(now)) && (c.row.None? || Ranged(c)) && LiveIs(c, now, h)
    requires Fetched(c, c', w, h) && forall d :: d in w ==> d < Today(now)
    ensures LiveIs(c', now, h)
  {
    hide DayBars; hide Today; hide Filter;
    if w == {} { StoredNothing(c.store, c'.store, h); }
  }

  lemma ClosedKeepsLive(c: Cache, now: Timestamp, from: Timestamp, to: Timestamp, h: seq<Candle>)
    requires InHours(h) && Sound(c, Today(now), h) && Sealed(c, Today(now)) && LiveIs(c, now, h) && RowDates(c)
    ensures LiveIs(EnsureClosed(c, now, from, to, h), now, h)
  {
    hide IsSession; hide IsDate; hide FromIst; hide PrevSession; hide DayBars; hide HasBars; hide ClosedTo;
    hide InHours;
    hide Today; hide FillClosed; hide Discover; hide Fetched; hide LiveIs; hide Sound; hide Sealed;
    var b := ClosedTo(now, to);
    ClosedToBounds(now, to);
    SoundRow(c, Today(now), h);
    if from == 0 && c.row.None? {
      DiscoverKeeps(c, b, h, now, false);
      NoLive(Discover(c, b, h, now), now, h);
    } else if from == 0 || FromIst(from) <= b {
      var a := if from == 0 then First(c) else FromIstDate(from);
      var w := FillClosedWrites(c, a, b, h, now);
      FillKeepsLive(c, FillClosed(c, a, b, h, now), w, now, h);
    }
  }

  lemma NoLive(c: Cache, now: Timestamp, h: seq<Candle>)
    requires c.row.Some? ==> c.row.value.live == None
    ensures LiveIs(c, now, h)
  {}

  lemma RefreshKeepsLive(c: Cache, h: seq<Candle>, now: Timestamp)
    requires InHours(h) && Sound(c, Today(now), h) && LiveIs(c, now, h)
    ensures var c1 := RefreshToday(c, Today(now), h, now);
      && LiveIs(c1, now, h) && c1.row.Some? && c1.row.value.live == Some(Today(now))
      && now - AsOf(c1, now) <= 1_800_000_000_000 && c1.store.Keys == c.store.Keys + {Today(now)}
  {
    hide IsSession; hide IsDate; hide DayBars; hide PrevSession; hide ChunkBars; hide Today; hide FetchAndStore;
    hide Filter;
    hide Sound; hide Ranged; hide StoreChunk; hide DayBars; hide FromIst;
    var today := Today(now);
    if RowOf(c).live == Some(today) && LiveFresh(RowOf(c), now) {
      assert c.store.Keys == c.store.Keys + {today};
    } else {
      FetchOneDay(c, today, h, now);
      TodayBars(h, now);
      OneDayStored(c, today, ChunkBars(h, now, [today]));
    }
  }

  lemma OneDayStored(c: Cache, d: SessionDate, bars: seq<Candle>)
    ensures StoreChunk(c, [d], bars).store == c.store[d := DayBars(bars, d)]
  {
    hide DayBars; hide Widen;
    assert [d][..0] == [];
    assert PutDays(c.store, [d], bars) == c.store[d := DayBars(bars, d)];
  }

  // ---------------------------------------------------------------- transparency

  /** A date the request spans that is not served: the range covers it and its key is missing, or the
      request has no lower bound and the date precedes the range. */
  ghost predicate Skipped(c: Cache, from: Timestamp, d: SessionDate) {
    if Covered(c, d) then d !in c.store
    else from == 0 && c.row.Some? && BeforeFirst(c, d)
  }

  /** After the closed part of a request, exactly the requested closed days with vendor bars that are
      not skipped are stored. */
  lemma ClosedServes(c: Cache, now: Timestamp, from: Timestamp, to: Timestamp, h: seq<Candle>, d: SessionDate)
    requires InHours(h) && Sound(c, Today(now), h) && Sealed(c, Today(now)) && RowDates(c)
    requires IsSession(d) && HasBars(h, d) && (from == 0 || FromIst(from) <= d) && d <= ClosedTo(now, to)
    ensures d in EnsureClosed(c, now, from, to, h).store <==> !Skipped(c, from, d)
  {
    hide IsSession; hide IsDate; hide FromIst; hide PrevSession; hide DayBars; hide HasBars; hide ClosedTo;
    hide InHours;
    hide Today; hide FillClosed; hide Discover;
    var today, b := Today(now), ClosedTo(now, to);
    ClosedToBounds(now, to);
    if from == 0 && c.row.None? {
      DiscoverKeeps(c, b, h, now, true);
    } else {
      SoundRow(c, today, h);
      var a := if from == 0 then First(c) else FromIstDate(from);
      var w := FillClosedWrites(c, a, b, h, now);
      FilledOrSkipped(c, FillClosed(c, a, b, h, now), w, a, b, from, today, h, d);
    }
  }

  lemma FilledOrSkipped(c: Cache, c': Cache, w: set<SessionDate>, a: SessionDate, b: SessionDate, from: Timestamp,
                        today: SessionDate, h: seq<Candle>, d: SessionDate)
    requires Sound(c, today, h) && Sealed(c, today) && FillWrites(c, w, a, b, h) && c'.store.Keys == c.store.Keys + w
    requires IsSession(d) && HasBars(h, d) && d <= b < today
    requires if from == 0 then c.row.Some? && a == First(c) else a <= d
    ensures d in c'.store <==> !Skipped(c, from, d)
  {
    hide IsSession; hide IsDate; hide PrevSession; hide DayBars; hide HasBars;
  }

  /** A session before today that has bars and that the request spans. */
  ghost predicate Asked(now: Timestamp, from: Timestamp, to: Timestamp, h: seq<Candle>, d: SessionDate) {
    IsSession(d) && HasBars(h, d) && d < Today(now) && (from == 0 || FromIst(from) <= d)
      && d <= FromIst(ClampTo(to, now))
  }

  /** What a whole request leaves behind: the live day is known up to a recent time, and the requested
      days with vendor bars are stored unless they are skipped. */
  lemma EnsureServes(c: Cache, now: Timestamp, from: Timestamp, to: Timestamp, h: seq<Candle>)
    requires InHours(h) && Sound(c, Today(now), h) && LiveIs(c, now, h) && RowDates(c)
    ensures var (c1, c2, today) := (Seal(c, Today(now), h, now), Ensure(c, now, from, to, h), Today(now));
      && Sound(c2, today, h) && Sealed(c2, today) && LiveIs(c2, now, h)
      && (WantsToday(now, from, to) ==> today in c2.store && now - AsOf(c2, now) <= 1_800_000_000_000)
      && forall d :: Asked(now, from, to, h, d) ==> (d in c2.store <==> !Skipped(c1, from, d))
  {
    hide IsSession; hide IsDate; hide FromIst; hide PrevSession; hide DayBars; hide HasBars; hide ClosedTo;
    hide InHours;
    hide Sound; hide Seal; hide EnsureClosed; hide RefreshToday; hide Today; hide LiveIs; hide Skipped; hide AsOf;
    var today := Today(now);
    EnsureIff(c, today, now, from, to, h, false);
    SealKeeps(c, today, h, now, false);
    SealKeepsLive(c, h, now);
    var c1 := Seal(c, today, h, now);
    SoundRow(c1, today, h);
    ClosedIff(c1, now, from, to, h, false);
    ClosedKeepsLive(c1, now, from, to, h);
    var c2 := EnsureClosed(c1, now, from, to, h);
    if WantsToday(now, from, to) { RefreshKeepsLive(c2, h, now); }
    forall d | Asked(now, from, to, h, d)
      ensures d in Ensure(c, now, from, to, h).store <==> !Skipped(c1, from, d)
    {
      ClosedToReaches(now, to, d);
      ClosedServes(c1, now, from, to, h, d);
    }
  }

  lemma ClosedToReaches(now: Timestamp, to: Timestamp, d: SessionDate)
    requires IsSession(d) && d < Today(now) && d <= FromIst(ClampTo(to, now))
    ensures d <= ClosedTo(now, to)
  {
    PrevSessionIsGreatest(Today(now));
    hide IsSession; hide IsDate; hide FromIst; hide PrevSession; hide Today;
  }

  /** Every listed day holds the vendor's bars, today's up to the time they were fetched. */
  lemma StoredDaysAreSeen(c: Cache, h: seq<Candle>, dates: seq<SessionDate>, now: Timestamp, from: Timestamp,
                          to: Timestamp)
    requires Sound(c, Today(now), h) && Sealed(c, Today(now)) && LiveIs(c, now, h)
      && Lists(dates, c.store, now, from, to)
    ensures Increasing(dates)
    ensures forall d :: d in dates ==>
      d in c.store && c.store[d] == DayBars(Filter(h, Seen(Today(now), AsOf(c, now))), d)
  {
    hide IsSession; hide IsDate; hide FromIst; hide PrevSession; hide Increasing; hide Today;
    var today, t := Today(now), AsOf(c, now);
    forall d | d in dates ensures d in c.store && c.store[d] == DayBars(Filter(h, Seen(today, t)), d) {
      SeenDay(h, today, t, d);
    }
  }

  lemma SeenDay(h: seq<Candle>, today: SessionDate, t: Timestamp, d: SessionDate)
    ensures DayBars(Filter(h, Seen(today, t)), d) ==
      if d == today then Filter(DayBars(h, d), UpTo(t)) else DayBars(h, d)
  {
    hide FromIst;
    FilterTwice(h, Seen(today, t), OnDate(d));
    FilterTwice(h, OnDate(d), UpTo(t));
    if d == today { FilterAgree(h, Both(Seen(today, t), OnDate(d)), Both(OnDate(d), UpTo(t))); }
    else { FilterAgree(h, Both(Seen(today, t), OnDate(d)), OnDate(d)); }
  }

  lemma {:induction false} FilterKeepsOrder(h: seq<Candle>, p: Candle -> bool)
    requires Chronological(h)
    ensures Chronological(Filter(h, p))
  {
    if h != [] {
      var n := |h| - 1;
      var t := Filter(h[..n], p);
      FilterKeepsOrder(h[..n], p);
      FilterMember(h[..n], p);
      forall i | 0 <= i < |t| ensures t[i].ts <= h[n].ts { assert t[i] in t; }
    }
  }

  /** What load_bars should answer: the vendor's bars of the range, today's up to time t. */
  function Answer(h: seq<Candle>, now: Timestamp, from: Timestamp, to: Timestamp, t: Timestamp): seq<Candle> {
    Filter(Vendor(h, now, from, to), Seen(Today(now), t))
  }

  /** No bar the vendor has for the request lies on a skipped date. */
  ghost predicate NothingSkipped(c: Cache, now: Timestamp, from: Timestamp, to: Timestamp, h: seq<Candle>) {
    forall x :: x in Vendor(h, now, from, to) && FromIst(x.ts) < Today(now) ==> !Skipped(c, from, FromIst(x.ts))
  }

  /** load_bars answers every request with exactly the vendor's bars of the range, today's at most half
      an hour old, if and only if no bar of the range lies on a date that the sealed range skips. */
  lemma TransparentIff(c: Cache, now: Timestamp, from: Timestamp, to: Timestamp, h: seq<Candle>,
                       dates: seq<SessionDate>)
    requires InHours(h) && Chronological(h) && Sound(c, Today(now), h) && LiveIs(c, now, h) && RowDates(c)
    requires Lists(dates, Ensure(c, now, from, to, h).store, now, from, to)
    ensures var c' := Ensure(c, now, from, to, h);
      && (WantsToday(now, from, to) ==> now - AsOf(c', now) <= 1_800_000_000_000)
      && (Serve(c'.store, dates, from, to) == Answer(h, now, from, to, AsOf(c', now)) <==>
          NothingSkipped(Seal(c, Today(now), h, now), now, from, to, h))
  {
    hide IsSession; hide IsDate; hide FromIst; hide PrevSession; hide DayBars; hide HasBars; hide InHours;
    hide Chronological;
    hide Sound; hide Seal; hide Ensure; hide Today; hide LiveIs; hide Skipped; hide AsOf; hide Increasing; hide Filter;
    EnsureServes(c, now, from, to, h);
    var c1, c2 := Seal(c, Today(now), h, now), Ensure(c, now, from, to, h);
    var t := AsOf(c2, now);
    var p, seen, listed := ServedAt(now, from, to), Seen(Today(now), t), InDates(dates);
    StoredDaysAreSeen(c2, h, dates, now, from, to);
    FilterKeepsOrder(h, seen);
    ServeSelects(c2.store, dates, from, to, Filter(h, seen));
    FilterTwice(h, seen, listed);
    FilterTwice(h, Both(seen, listed), Inside(from, to));
    FilterTwice(h, p, seen);
    var got := Both(Both(seen, listed), Inside(from, to));
    FilterMember(h, p);
    if NothingSkipped(c1, now, from, to, h) {
      forall x | x in h ensures got(x) == Both(p, seen)(x) {
        SameBar(c, now, from, to, h, dates, x);
      }
      FilterAgree(h, got, Both(p, seen));
    }
    if Serve(c2.store, dates, from, to) == Answer(h, now, from, to, t) {
      FilterMember(h, got);
      FilterMember(h, Both(p, seen));
      forall x | x in Vendor(h, now, from, to) && FromIst(x.ts) < Today(now) ensures !Skipped(c1, from, FromIst(x.ts)) {
        assert Both(p, seen)(x);
        assert x in Filter(h, Both(p, seen)) && x in Filter(h, got);
        SameBar(c, now, from, to, h, dates, x);
      }
    }
  }

  /** A bar the vendor has for the request is listed exactly when its date is not skipped. */
  lemma SameBar(c: Cache, now: Timestamp, from: Timestamp, to: Timestamp, h: seq<Candle>, dates: seq<SessionDate>,
                x: Candle)
    requires InHours(h) && Sound(c, Today(now), h) && LiveIs(c, now, h) && RowDates(c) && x in h
    requires Lists(dates, Ensure(c, now, from, to, h).store, now, from, to)
    ensures var (c1, c2, d) := (Seal(c, Today(now), h, now), Ensure(c, now, from, to, h), FromIst(x.ts));
      && (ServedAt(now, from, to)(x) && d < Today(now) ==> (d in dates <==> !Skipped(c1, from, d)))
      && (ServedAt(now, from, to)(x) && d >= Today(now) ==> d in dates)
      && (!ServedAt(now, from, to)(x) && Seen(Today(now), AsOf(c2, now))(x) && Within(x.ts, from, to) ==> d !in dates)
  {
    hide IsSession; hide IsDate; hide PrevSession; hide DayBars; hide HasBars;
    hide Sound; hide Seal; hide Ensure; hide Skipped; hide Increasing; hide FromIst; hide Today;
    EnsureServes(c, now, from, to, h);
    var d := FromIstDate(x.ts);
    assert d == FromIst(x.ts) && IsSession(d);
    DayMember(h, d);
    if x.ts <= now { IstMonotone(x.ts, now); } else { IstMonotone(now, x.ts); }
    IstMonotone(ClampTo(to, now), now);
    if x.ts <= ClampTo(to, now) { IstMonotone(x.ts, ClampTo(to, now)); }
    if from != 0 && from <= x.ts { IstMonotone(from, x.ts); }
    TodayIs(now);
  }

  lemma TodayIs(now: Timestamp)
    ensures Today(now) == FromIst(now)
  {}

  /** From a range without missing keys load_bars is transparent: it answers with exactly the vendor's
      bars of the range, today's at most half an hour old. */
  lemma Transparent(c: Cache, now: Timestamp, from: Timestamp, to: Timestamp, h: seq<Candle>, dates: seq<SessionDate>)
    requires InHours(h) && Chronological(h) && Sound(c, Today(now), h) && LiveIs(c, now, h) && RowDates(c)
    requires HoldsAll(c, h, false) && (from != 0 || c.row.None?)
    requires Lists(dates, Ensure(c, now, from, to, h).store, now, from, to)
    ensures var c' := Ensure(c, now, from, to, h);
      && Serve(c'.store, dates, from, to) == Answer(h, now, from, to, AsOf(c', now))
      && (WantsToday(now, from, to) ==> now - AsOf(c', now) <= 1_800_000_000_000)
  {
    hide IsSession; hide IsDate; hide FromIst; hide PrevSession; hide DayBars; hide HasBars; hide Chronological;
    hide Answer;
    hide Serve;
    hide Sound; hide Seal; hide Ensure; hide Today; hide LiveIs; hide AsOf; hide Increasing; hide Filter;
    hide WantsToday;
    TransparentIff(c, now, from, to, h, dates);
    SealKeeps(c, Today(now), h, now, false);
    var c1 := Seal(c, Today(now), h, now);
    SoundRow(c1, Today(now), h);
    FilterMember(h, ServedAt(now, from, to));
    forall x | x in Vendor(h, now, from, to) && FromIst(x.ts) < Today(now) ensures !Skipped(c1, from, FromIst(x.ts)) {
      DayMember(h, FromIst(x.ts));
      assert Needed(h, FromIst(x.ts), false);
    }
  }

  // ---------------------------------------------------------------- runs of requests

  ghost function LastNow(reqs: seq<Request>): Timestamp {
    if reqs == [] then 0 else reqs[|reqs| - 1].now
  }

  lemma LiveLater(c: Cache, before: Timestamp, now: Timestamp, h: seq<Candle>)
    requires LiveIs(c, before, h) && before <= now
    ensures LiveIs(c, now, h)
  {
    hide DayBars; hide Filter;
  }

  /** The state a request of a run meets. */
  lemma RunMeets(reqs: seq<Request>, h: seq<Candle>, n: nat)
    requires InHours(h) && ClockNeverTurnsBack(reqs) && n == |reqs| - 1
    ensures ClockNeverTurnsBack(reqs[..n])
      && Run(reqs, h) == Ensure(Run(reqs[..n], h), reqs[n].now, reqs[n].from, reqs[n].to, h)
    ensures Sound(Run(reqs[..n], h), Today(reqs[n].now), h) && LiveIs(Run(reqs[..n], h), reqs[n].now, h)
    decreases |reqs|, 0
  {
    hide IsSession; hide IsDate; hide PrevSession; hide DayBars; hide FromIst; hide Ensure; hide InHours; hide RowDates;
    hide Sound; hide LiveIs; hide Today;
    TodayGrows(reqs, n);
    RunSound(reqs[..n], h);
    RunLive(reqs[..n], h);
    SoundLater(Run(reqs[..n], h), LastToday(reqs[..n]), Today(reqs[n].now), h);
    LiveLater(Run(reqs[..n], h), LastNow(reqs[..n]), reqs[n].now, h);
  }

  /** Over every run with a non-decreasing clock the live day holds what the vendor had at its last refresh. */
  lemma {:induction false} RunLive(reqs: seq<Request>, h: seq<Candle>)
    requires InHours(h) && ClockNeverTurnsBack(reqs)
    ensures LiveIs(Run(reqs, h), LastNow(reqs), h)
    decreases |reqs|, 1
  {
    hide IsSession; hide IsDate; hide PrevSession; hide DayBars; hide FromIst; hide Ensure; hide InHours;
    hide RowDates; hide Today;
    hide Sound; hide AsOf; hide Skipped; hide Sealed; hide WantsToday; hide HasBars;
    if reqs == [] {
      NoLive(EMPTY_CACHE, 0, h);
    } else {
      hide LiveIs; hide Run;
      var n := |reqs| - 1;
      RunMeets(reqs, h, n);
      EnsureServes(Run(reqs[..n], h), reqs[n].now, reqs[n].from, reqs[n].to, h);
    }
  }

  /** A service that starts empty and has met only fitting requests answers the next one, fitting or not,
      with exactly the vendor's bars of its range, today's at most half an hour old. A request without
      lower bound is answered so when it is the one that discovers the history. */
  lemma RunServes(reqs: seq<Request>, h: seq<Candle>, dates: seq<SessionDate>)
    requires InHours(h) && Chronological(h) && ClockNeverTurnsBack(reqs) && |reqs| > 0
    requires AllFit(reqs[..|reqs| - 1], h, false)
    requires reqs[|reqs| - 1].from != 0 || Run(reqs[..|reqs| - 1], h).row.None?
    requires var r := reqs[|reqs| - 1]; Lists(dates, Run(reqs, h).store, r.now, r.from, r.to)
    ensures var (r, c) := (reqs[|reqs| - 1], Run(reqs, h));
      && Serve(c.store, dates, r.from, r.to) == Answer(h, r.now, r.from, r.to, AsOf(c, r.now))
      && (WantsToday(r.now, r.from, r.to) ==> r.now - AsOf(c, r.now) <= 1_800_000_000_000)
  {
    hide IsSession; hide IsDate; hide FromIst; hide PrevSession; hide DayBars; hide HasBars; hide Chronological;
    hide InHours;
    hide Sound; hide Seal; hide Ensure; hide Today; hide LiveIs; hide AsOf; hide Increasing; hide Filter; hide HoldsAll;
    hide RequestFits; hide WantsToday; hide RowDates; hide Answer; hide Serve;
    var n := |reqs| - 1;
    RunMeets(reqs, h, n);
    RunHoldsAll(reqs[..n], h, false);
    Transparent(Run(reqs[..n], h), reqs[n].now, reqs[n].from, reqs[n].to, h, dates);
  }

  /** The cache holds a live copy of today that is at most half an hour old. */
  ghost predicate HasFreshToday(c: Cache, now: Timestamp) {
    && c.row.Some? && c.row.value.live == Some(Today(now))
    && c.row.value.fetchedAt.Some? && now - c.row.value.fetchedAt.value <= 1_800_000_000_000
  }

  lemma ClosedKeepsRow(c: Cache, now: Timestamp, from: Timestamp, to: Timestamp, h: seq<Candle>)
    requires InHours(h) && Sound(c, Today(now), h) && Sealed(c, Today(now)) && RowDates(c)
    ensures var c' := EnsureClosed(c, now, from, to, h);
      && RowOf(c').live == RowOf(c).live
      && (c.row.Some? ==> RowOf(c').fetchedAt == RowOf(c).fetchedAt)
  {
    hide IsSession; hide IsDate; hide FromIst; hide PrevSession; hide DayBars; hide HasBars; hide ClosedTo;
    hide InHours; hide Today; hide FillClosed; hide Discover; hide Sealed;
    var b := ClosedTo(now, to);
    ClosedToBounds(now, to);
    SoundRow(c, Today(now), h);
    if from == 0 && c.row.None? {
      DiscoverKeeps(c, b, h, now, false);
    } else if from == 0 || FromIst(from) <= b {
      var w := FillClosedWrites(c, if from == 0 then First(c) else FromIstDate(from), b, h, now);
    }
  }

  /** A request that wants today asks the vendor for it, once, if and only if the cache has no live copy of
      today or an older one than half an hour; what it knows of today is then as of now, and else as of the
      copy. A request that does not want today never asks for it. */
  lemma TodayAskedIff(c: Cache, now: Timestamp, from: Timestamp, to: Timestamp, h: seq<Candle>)
    requires InHours(h) && Sound(c, Today(now), h) && RowDates(c)
    ensures RowDates(Seal(c, Today(now), h, now))
    ensures var closed, c' := EnsureClosed(Seal(c, Today(now), h, now), now, from, to, h), Ensure(c, now, from, to, h);
      && (c' == closed <==> !WantsToday(now, from, to) || HasFreshToday(c, now))
      && c'.fetches == closed.fetches + (if WantsToday(now, from, to) && !HasFreshToday(c, now) then 1 else 0)
      && (WantsToday(now, from, to) ==>
            AsOf(c', now) == if HasFreshToday(c, now) then c.row.value.fetchedAt.value else now)
  {
    hide IsSession; hide IsDate; hide FromIst; hide PrevSession; hide DayBars; hide HasBars; hide ClosedTo;
    hide InHours; hide Today; hide EnsureClosed; hide FetchAndStore; hide Sound;
    SealKeepsRowDates(c, Today(now), h, now);
    SealKeeps(c, Today(now), h, now, false);
    var c1 := Seal(c, Today(now), h, now);
    ClosedKeepsRow(c1, now, from, to, h);
    var closed := EnsureClosed(c1, now, from, to, h);
    if WantsToday(now, from, to) {
      SealedRowIs(c, h, now);
      RefreshAsks(closed, h, now);
    }
  }

  lemma SealedRowIs(c: Cache, h: seq<Candle>, now: Timestamp)
    requires RowDates(c) && IsSession(Today(now))
    ensures var c1 := Seal(c, Today(now), h, now);
      && (RowOf(c1).live == Some(Today(now)) <==> RowOf(c).live == Some(Today(now)))
      && (RowOf(c).live == Some(Today(now)) ==> c1 == c)
  {
    hide IsSession; hide IsDate; hide Today; hide FetchAndStore;
  }

  lemma RefreshAsks(c: Cache, h: seq<Candle>, now: Timestamp)
    requires InHours(h)
    ensures var c' := RefreshToday(c, Today(now), h, now);
      var kept := RowOf(c).live == Some(Today(now)) && RowOf(c).fetchedAt.Some?
        && now - RowOf(c).fetchedAt.value <= 1_800_000_000_000;
      && (kept ==> c' == c)
      && (!kept ==>
            && c'.fetches == c.fetches + 1 && c'.row.Some?
            && RowOf(c').live == Some(Today(now)) && RowOf(c').fetchedAt == Some(now))
  {
    hide IsSession; hide IsDate; hide DayBars; hide PrevSession; hide ChunkBars; hide Today; hide FromIst; hide PutDays;
    hide Widen;
    FetchOneDay(c, Today(now), h, now);
  }

  /** Every chunk costs one vendor call. */
  lemma {:induction false} ChunksAreCalls(c: Cache, chunks: seq<seq<SessionDate>>, leftExtend: bool, h: seq<Candle>,
                                          now: Timestamp)
    requires AllChunks(chunks)
    ensures FetchChunks(c, chunks, leftExtend, h, now).fetches == c.fetches + |chunks|
    decreases |chunks|
  {
    hide IsDate; hide ChunkBars; hide PutDays; hide Widen; hide DropBare;
    if chunks != [] {
      var bars := ChunkBars(h, now, chunks[0]);
      ChunksAreCalls(StoreChunk(c, ToWrite(chunks[0], bars, leftExtend), bars), chunks[1..], leftExtend, h, now);
    }
  }

  /** Filling closed sessions asks the vendor once per chunk of the uncovered ones. */
  lemma FillCalls(c: Cache, lo: SessionDate, hi: SessionDate, h: seq<Candle>, now: Timestamp)
    requires IsDate(lo)
    ensures AllDates(LeftDays(c, lo, hi)) && AllDates(RestDays(c, lo, hi))
    ensures FillClosed(c, lo, hi, h, now).fetches ==
      c.fetches + |Greedy(LeftDays(c, lo, hi))| + |Greedy(RestDays(c, lo, hi))|
  {
    hide IsDate; hide FetchChunks; hide Greedy;
    PickedDates(lo, hi, IsLeft(c));
    PickedDates(lo, hi, IsRest(c));
    var left, rest := LeftDays(c, lo, hi), RestDays(c, lo, hi);
    GreedyChunks(left);
    GreedyChunks(rest);
    ChunksAreCalls(c, Greedy(left), true, h, now);
    ChunksAreCalls(FetchAndStore(c, left, true, h, now), Greedy(rest), !(c.row.Some? && c.row.value.first.Some?), h,
      now);
  }

  /** A request whose closed sessions are covered, with a fresh live day if today is wanted,
      changes nothing and makes no vendor call. */
  lemma RepeatIsFree(c: Cache, now: Timestamp, from: Timestamp, to: Timestamp, h: seq<Candle>)
    requires Sound(c, Today(now), h) && Sealed(c, Today(now)) && c.row.Some? && RowDates(c)
    requires c.row.value.live.Some? ==> IsSession(Today(now))
    requires forall d :: IsSession(d) && (if from == 0 then First(c) else FromIst(from)) <= d <= ClosedTo(now, to) ==>
      First(c) <= d <= Last(c)
    requires WantsToday(now, from, to) ==> HasFreshToday(c, now)
    ensures Ensure(c, now, from, to, h) == c
  {
    hide IsSession; hide IsDate; hide FromIst; hide PrevSession; hide DayBars; hide ClosedTo; hide Today;
    hide FillClosed;
    assert Seal(c, Today(now), h, now) == c;
    if from == 0 || FromIst(from) <= ClosedTo(now, to) {
      var a := if from == 0 then First(c) else FromIstDate(from);
      CoveredNeedsNothing(c, a, ClosedTo(now, to), h, now);
    }
  }

  lemma CoveredNeedsNothing(c: Cache, a: SessionDate, b: SessionDate, h: seq<Candle>, now: Timestamp)
    requires Ranged(c) && IsDate(a)
    requires forall d :: IsSession(d) && a <= d <= b ==> First(c) <= d <= Last(c)
    ensures FillClosed(c, a, b, h, now) == c
  {
    hide IsSession; hide IsDate;
    SessionListIsExact(a, b);
    FilterNone(SessionList(a, b), IsLeft(c));
    FilterNone(SessionList(a, b), IsRest(c));
    GreedyOfNothing();
  }
}
