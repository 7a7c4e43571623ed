/** The ordered store of keys and blobs refines the cache's map of dates to bars, for every ticker and
    resolution at once; what load_bars answers can therefore be read off the bytes. */
module StoreRefinement {
  import opened Domain
  import opened Selection
  import opened SessionCalendar
  import opened SessionKeys
  import opened Packing
  import opened BarStore
  import MarketCache

  // ---------------------------------------------------------------- bars as records

  predicate Fits64(x: int) { -TWO_63 <= x < TWO_63 }

  predicate Storable(c: Candle) {
    Fits64(c.ts) && Fits64(c.open) && Fits64(c.high) && Fits64(c.low) && Fits64(c.close) && Fits64(c.volume)
  }

  predicate AllStorable(bars: seq<Candle>) { forall c :: c in bars ==> Storable(c) }

  function ToRecord(c: Candle): Record
    requires Storable(c)
  {
    Record(c.ts, c.open, c.high, c.low, c.close, c.volume)
  }

  function Records(bars: seq<Candle>): (r: seq<Record>)
    requires AllStorable(bars)
    ensures |r| == |bars| && forall i :: 0 <= i < |bars| ==> r[i] == ToRecord(bars[i])
  {
    seq(|bars|, i requires 0 <= i < |bars| => ToRecord(bars[i]))
  }

  /** The bars as load_bars hands them out, with the caller's symbol. */
  function Handed(bars: seq<Candle>, symbol: nat, r: Resolution): seq<Unpacked>
    requires AllStorable(bars)
  {
    Labelled(Records(bars), symbol, Code(r))
  }

  lemma HandedConcat(a: seq<Candle>, b: seq<Candle>, symbol: nat, r: Resolution)
    requires AllStorable(a) && AllStorable(b)
    ensures AllStorable(a + b) && Handed(a + b, symbol, r) == Handed(a, symbol, r) + Handed(b, symbol, r)
  {}

  lemma HandedEqual(a: seq<Candle>, b: seq<Candle>, symbol: nat, r: Resolution)
    requires AllStorable(a) && AllStorable(b) && Handed(a, symbol, r) == Handed(b, symbol, r)
    ensures a == b
  {
    var x, y := Handed(a, symbol, r), Handed(b, symbol, r);
    assert |a| == |x| && |b| == |y|;
    forall i | 0 <= i < |a| ensures a[i] == b[i] { assert x[i] == y[i]; }
  }

  lemma StorablePart(bars: seq<Candle>, p: Candle -> bool)
    requires AllStorable(bars)
    ensures AllStorable(Filter(bars, p))
  {
    FilterMember(bars, p);
  }

  // ---------------------------------------------------------------- keys

  /** A key tells its ticker, resolution and date, whatever the ticker. */
  lemma KeyTells(t: string, r: Resolution, d: SessionDate, u: string, q: Resolution, e: SessionDate)
    requires Writable(d) && Writable(e) && SessionKey(t, r, d) == SessionKey(u, q, e)
    ensures t == u && r == q && d == e
  {
    hide Iso; hide AfterBar;
    var a, b := t + "|" + Code(r), u + "|" + Code(q);
    var key := SessionKey(t, r, d);
    KeyCarriesDate(t, r, d);
    KeyCarriesDate(u, q, e);
    IsoOrder(d, e);
    assert key == a + "|" + Iso(d) && key == b + "|" + Iso(e);
    assert |a| == |b|;
    assert a == key[..|a|] && b == key[..|b|];
    AfterBarOf(t, Code(r));
    AfterBarOf(u, Code(q));
    assert |t| == |u|;
    assert t == a[..|t|] && u == b[..|u|] && Code(r) == a[|t| + 1..] && Code(q) == b[|u| + 1..];
    CodeTells(r, q, "");
    assert Code(q) + "|" + "" == Code(q) + "|";
  }

  // ---------------------------------------------------------------- refinement

  /** A date that put_session accepts and a scan can parse back. */
  predicate Dated(d: SessionDate) { Writable(d) && Plausible(d) }

  /** The blob of a stored session. */
  ghost predicate HoldsBars(db: seq<Entry>, key: string, bars: seq<Candle>) {
    AllStorable(bars) && |bars| < TWO_32 && Lookup(db, key) == Some(Pack(Records(bars)))
  }

  /** For one ticker and resolution the ordered store holds exactly the sessions of the map. */
  ghost predicate Refines(db: seq<Entry>, t: string, r: Resolution, store: map<SessionDate, seq<Candle>>) {
    && Sorted(db) && Canonical(db)
    && (forall d :: d in store ==> Dated(d) && HoldsBars(db, SessionKey(t, r, d), store[d]))
    && (forall d :: Writable(d) && Lookup(db, SessionKey(t, r, d)).Some? ==> d in store)
  }

  lemma EmptyRefines(t: string, r: Resolution)
    ensures Refines([], t, r, map[])
  {
    hide Iso; hide Less;
  }

  datatype Session = Session(ticker: string, resolution: Resolution, date: SessionDate, bars: seq<Candle>)

  predicate Acceptable(p: Session) { Dated(p.date) && AllStorable(p.bars) && |p.bars| < TWO_32 }

  function PutBytes(db: seq<Entry>, p: Session): seq<Entry>
    requires Acceptable(p)
  {
    Put(db, SessionKey(p.ticker, p.resolution, p.date), Pack(Records(p.bars)))
  }

  function PutModel(store: map<SessionDate, seq<Candle>>, t: string, r: Resolution, p: Session)
    : map<SessionDate, seq<Candle>>
  {
    if p.ticker == t && p.resolution == r then store[p.date := p.bars] else store
  }

  /** One put_session updates the map of its own ticker and resolution and no other. */
  lemma PutRefines(db: seq<Entry>, t: string, r: Resolution, store: map<SessionDate, seq<Candle>>, p: Session)
    requires Refines(db, t, r, store) && Acceptable(p)
    ensures Refines(PutBytes(db, p), t, r, PutModel(store, t, r, p))
  {
    hide Iso; hide Less; hide Put; hide Lookup; hide Pack; hide SessionKey; hide Plausible; hide AllStorable;
    hide Records;
    var key, value := SessionKey(p.ticker, p.resolution, p.date), Pack(Records(p.bars));
    PutSorted(db, key, value);
    PutCanonical(db, p.ticker, p.resolution, p.date, value);
    var more, model := PutBytes(db, p), PutModel(store, t, r, p);
    forall d | Writable(d)
      ensures Lookup(more, SessionKey(t, r, d)) ==
        if p.ticker == t && p.resolution == r && p.date == d then Some(value) else Lookup(db, SessionKey(t, r, d))
    {
      LookupPut(db, key, value, SessionKey(t, r, d));
      if SessionKey(t, r, d) == key { KeyTells(t, r, d, p.ticker, p.resolution, p.date); }
    }
  }

  function PutAllBytes(db: seq<Entry>, ps: seq<Session>): seq<Entry>
    requires forall p :: p in ps ==> Acceptable(p)
  {
    if ps == [] then db else PutBytes(PutAllBytes(db, ps[..|ps| - 1]), ps[|ps| - 1])
  }

  function PutAllModel(store: map<SessionDate, seq<Candle>>, t: string, r: Resolution, ps: seq<Session>)
    : map<SessionDate, seq<Candle>>
  {
    if ps == [] then store else PutModel(PutAllModel(store, t, r, ps[..|ps| - 1]), t, r, ps[|ps| - 1])
  }

  /** Any sequence of writes, for any mixture of tickers and resolutions, keeps the store a refinement of
      every one of its maps. */
  lemma {:induction false} PutAllRefines(db: seq<Entry>, t: string, r: Resolution, store: map<SessionDate, seq<Candle>>,
                                         ps: seq<Session>)
    requires Refines(db, t, r, store) && forall p :: p in ps ==> Acceptable(p)
    ensures Refines(PutAllBytes(db, ps), t, r, PutAllModel(store, t, r, ps))
  {
    hide Refines; hide Acceptable; hide PutBytes; hide PutModel;
    if ps != [] {
      var n := |ps| - 1;
      PutAllRefines(db, t, r, store, ps[..n]);
      PutRefines(PutAllBytes(db, ps[..n]), t, r, PutAllModel(store, t, r, ps[..n]), ps[n]);
    }
  }

  /** The sessions fetch_and_store writes for a chunk. */
  function DaySessions(t: string, r: Resolution, days: seq<SessionDate>, bars: seq<Candle>): (ps: seq<Session>)
    ensures |ps| == |days|
    ensures forall i :: 0 <= i < |days| ==> ps[i] == Session(t, r, days[i], MarketCache.DayBars(bars, days[i]))
  {
    seq(|days|, i requires 0 <= i < |days| => Session(t, r, days[i], MarketCache.DayBars(bars, days[i])))
  }

  lemma {:induction false} DaySessionsArePuts(store: map<SessionDate, seq<Candle>>, t: string, r: Resolution,
                                              days: seq<SessionDate>, bars: seq<Candle>)
    ensures PutAllModel(store, t, r, DaySessions(t, r, days, bars)) == MarketCache.PutDays(store, days, bars)
  {
    hide MarketCache.DayBars;
    if days != [] {
      var n := |days| - 1;
      DaySessionsArePuts(store, t, r, days[..n], bars);
      assert DaySessions(t, r, days, bars)[..n] == DaySessions(t, r, days[..n], bars);
    }
  }

  /** Writing the days of a fetched chunk as blobs refines writing them to the map. */
  lemma DaysRefine(db: seq<Entry>, t: string, r: Resolution, store: map<SessionDate, seq<Candle>>,
                   days: seq<SessionDate>, bars: seq<Candle>)
    requires Refines(db, t, r, store) && AllStorable(bars) && |bars| < TWO_32
    requires forall d :: d in days ==> Dated(d)
    ensures var ps := DaySessions(t, r, days, bars);
      && (forall p :: p in ps ==> Acceptable(p))
      && Refines(PutAllBytes(db, ps), t, r, MarketCache.PutDays(store, days, bars))
  {
    hide Refines; hide AllStorable; hide PutAllBytes; hide PutAllModel; hide Dated; hide MarketCache.PutDays;
    var ps := DaySessions(t, r, days, bars);
    forall p | p in ps ensures Acceptable(p) {
      var i :| 0 <= i < |ps| && ps[i] == p;
      assert days[i] in days;
      StorablePart(bars, MarketCache.OnDate(days[i]));
      FilterShorter(bars, MarketCache.OnDate(days[i]));
    }
    PutAllRefines(db, t, r, store, ps);
    DaySessionsArePuts(store, t, r, days, bars);
  }

  // ---------------------------------------------------------------- reading

  /** A date of the map is read back as its bars, any other date as absent. */
  lemma GetRefines(db: seq<Entry>, t: string, r: Resolution, store: map<SessionDate, seq<Candle>>, d: SessionDate)
    requires Refines(db, t, r, store) && Writable(d)
    ensures match Lookup(db, SessionKey(t, r, d))
            case None => d !in store
            case Some(blob) => d in store && AllStorable(store[d]) && Unpack(blob) == Ok(Records(store[d]))
  {
    hide Iso; hide Less; hide Lookup; hide Pack; hide Unpack; hide SessionKey; hide AllStorable; hide Records;
    hide Sorted; hide Canonical;
    if d in store { UnpackPackIff(Records(store[d])); }
  }

  /** No other key carries the prefix of (t, r) within the bounds. */
  ghost predicate Unaliased(db: seq<Entry>, t: string, r: Resolution, lo: SessionDate, hi: SessionDate)
    requires lo < 100_000_000 && hi < 100_000_000
  {
    forall j :: 0 <= j < |db| && InBounds(db[j].key, t, r, lo, hi) ==> ProperKey(db[j].key, t, r)
  }

  /** Tickers without bar signs are never aliased. */
  lemma PlainIsUnaliased(db: seq<Entry>, t: string, r: Resolution, lo: SessionDate, hi: SessionDate)
    requires '|' !in t && lo < 100_000_000 && hi < 100_000_000
    requires forall i :: 0 <= i < |db| ==> PlainKey(db[i].key)
    ensures Unaliased(db, t, r, lo, hi)
  {
    hide Iso; hide Less; hide SessionKey; hide Plausible; hide PlainKey; hide ProperKey;
    forall j | 0 <= j < |db| && InBounds(db[j].key, t, r, lo, hi) ensures ProperKey(db[j].key, t, r) {
      PlainIsProper(db[j].key, t, r);
    }
  }

  /** list_sessions returns the dates of the map within the bounds, ascending, if and only if the bounds
      hold no alias. */
  lemma ListRefinesIff(db: seq<Entry>, t: string, r: Resolution, store: map<SessionDate, seq<Candle>>,
                       lo: SessionDate, hi: SessionDate)
    requires Refines(db, t, r, store) && lo < 100_000_000 && hi < 100_000_000
    ensures (var l := List(db, t, r, lo, hi);
        && l.Ok? && Increasing(l.value)
        && forall d :: d in l.value <==> d in store && (lo > 0 ==> lo <= d) && (hi > 0 ==> d <= hi))
      <==> Unaliased(db, t, r, lo, hi)
  {
    hide Iso; hide Less; hide Lookup; hide SessionKey; hide InBounds; hide ProperKey; hide List; hide HoldsBars;
    hide Canonical;
    hide Increasing; hide Plausible; hide Sorted;
    ListExactIff(db, t, r, lo, hi);
    forall d | Writable(d) ensures d in store <==> Has(db, 0, SessionKey(t, r, d)) {
      LookupIs(db, SessionKey(t, r, d));
      if d in store { StoredIsFound(db, t, r, store, d); }
    }
  }

  lemma StoredIsFound(db: seq<Entry>, t: string, r: Resolution, store: map<SessionDate, seq<Candle>>, d: SessionDate)
    requires Refines(db, t, r, store) && d in store
    ensures Writable(d) && Lookup(db, SessionKey(t, r, d)).Some?
  {
    hide Iso; hide Less; hide Lookup; hide Pack; hide SessionKey; hide AllStorable; hide Records; hide Sorted;
    hide Canonical;
  }

  // ---------------------------------------------------------------- load_bars on the bytes

  /** A 64-bit timestamp falls on a date with a four-digit year. */
  lemma StampDates(ts: Timestamp)
    requires ts < TWO_63
    ensures Writable(FromIst(ts)) && FromIst(ts) > 0
  {
    hide FromIst; hide DayNumber;
    var end := 22620413;
    FarFuture(end);
    IstOrder(ts, end);
  }

  lemma FarFuture(end: SessionDate)
    requires end == 22620413
    ensures IsDate(end) && IstHm(end, 0, 0) > TWO_63
  {
    PartsOf(2262, 4, 13);
    hide Year; hide Month; hide Day;
    Before2262();
    hide DaysBeforeYear; hide DaysBeforeMonth; hide Leap;
    assert IsDate(end) && DayNumber(end) == 825916;
  }

  lemma Before2262()
    ensures DaysBeforeYear(2262) == 825813
    ensures !Leap(2262) && DaysBeforeMonth(2262, 4) == 90
  {}

  function LowBound(from: Timestamp): SessionDate { if from == 0 then 0 else FromIst(from) }

  function HighBound(now: Timestamp, to: Timestamp): SessionDate { FromIst(MarketCache.ClampTo(to, now)) }

  lemma Bounds(now: Timestamp, from: Timestamp, to: Timestamp)
    requires now < TWO_63 && from < TWO_63
    ensures Writable(LowBound(from)) && (LowBound(from) > 0 <==> from != 0)
    ensures Writable(HighBound(now, to)) && HighBound(now, to) > 0
  {
    hide FromIst;
    StampDates(from);
    StampDates(MarketCache.ClampTo(to, now));
  }

  lemma ListedDates(db: seq<Entry>, t: string, r: Resolution, store: map<SessionDate, seq<Candle>>,
                    now: Timestamp, from: Timestamp, to: Timestamp)
    requires now < TWO_63 && from < TWO_63 && Refines(db, t, r, store)
    ensures Writable(LowBound(from)) && Writable(HighBound(now, to))
    ensures Unaliased(db, t, r, LowBound(from), HighBound(now, to)) ==>
      var l := List(db, t, r, LowBound(from), HighBound(now, to));
      l.Ok? && MarketCache.Lists(l.value, store, now, from, to)
  {
    hide FromIst; hide List; hide Unaliased; hide Refines; hide Increasing;
    Bounds(now, from, to);
    ListRefinesIff(db, t, r, store, LowBound(from), HighBound(now, to));
  }

  lemma {:induction false} ServedStorable(db: seq<Entry>, t: string, r: Resolution,
                                          store: map<SessionDate, seq<Candle>>,
                                          dates: seq<SessionDate>, from: Timestamp, to: Timestamp)
    requires Refines(db, t, r, store) && forall d :: d in dates ==> d in store
    ensures AllStorable(MarketCache.Serve(store, dates, from, to))
  {
    hide Iso; hide Lookup; hide SessionKey; hide Pack; hide Records; hide Sorted; hide Canonical; hide Plausible;
    if dates != [] {
      var n := |dates| - 1;
      var d := dates[n];
      assert d in dates;
      ServedStorable(db, t, r, store, dates[..n], from, to);
      StorablePart(store[d], MarketCache.Inside(from, to));
    }
  }

  /** The bars of one blob that lie inside the request. */
  method KeepInside(got: seq<Unpacked>, ghost bars: seq<Candle>, symbol: nat, r: Resolution, from: Timestamp,
                    to: Timestamp)
    returns (kept: seq<Unpacked>)
    requires AllStorable(bars) && got == Handed(bars, symbol, r)
    ensures AllStorable(Filter(bars, MarketCache.Inside(from, to)))
    ensures kept == Handed(Filter(bars, MarketCache.Inside(from, to)), symbol, r)
  {
    hide Code;
    ghost var p := MarketCache.Inside(from, to);
    kept := [];
    assert bars[..0] == [];
    for k := 0 to |got|
      invariant AllStorable(Filter(bars[..k], p)) && kept == Handed(Filter(bars[..k], p), symbol, r)
    {
      FilterStep(bars, k, p);
      assert bars[k] in bars;
      HandedConcat(Filter(bars[..k], p), [bars[k]], symbol, r);
      var ts := got[k].record.ts;
      if !(from != 0 && ts < from) && !(to != 0 && ts > to) { kept := kept + [got[k]]; }
    }
    assert bars[..|got|] == bars;
  }

  /** load_bars after its fetch: list the sessions, read each blob, keep what lies inside the request. */
  method LoadStored(store: RocksBarStore, t: string, r: Resolution, symbol: nat,
                    now: Timestamp, from: Timestamp, to: Timestamp, ghost cache: map<SessionDate, seq<Candle>>)
    returns (bars: Result<seq<Unpacked>>, ghost dates: seq<SessionDate>)
    requires store.Valid() && store.isOpen && Refines(store.db, t, r, cache)
    requires now < TWO_63 && from < TWO_63
    requires Writable(LowBound(from)) && Writable(HighBound(now, to))
    requires Unaliased(store.db, t, r, LowBound(from), HighBound(now, to))
    ensures MarketCache.Lists(dates, cache, now, from, to) && (forall d :: d in dates ==> d in cache)
    ensures AllStorable(MarketCache.Serve(cache, dates, from, to))
    ensures bars == Ok(Handed(MarketCache.Serve(cache, dates, from, to), symbol, r))
  {
    hide FromIst; hide Iso; hide Less; hide Lookup; hide SessionKey; hide Unpack; hide List; hide Refines; hide Sorted;
    hide Canonical; hide Unaliased; hide AllStorable; hide Filter; hide Handed; hide Increasing; hide Code;
    ListedDates(store.db, t, r, cache, now, from, to);
    Bounds(now, from, to);
    var listed := store.ListSessions(t, r, if from == 0 then 0 else FromIst(from), HighBound(now, to));
    dates := listed.value;
    var out: seq<Unpacked> := [];
    ServedStorable(store.db, t, r, cache, [], from, to);
    HandedNothing(symbol, r);
    for i := 0 to |listed.value|
      invariant forall d :: d in dates[..i] ==> d in cache
      invariant AllStorable(MarketCache.Serve(cache, dates[..i], from, to))
      invariant out == Handed(MarketCache.Serve(cache, dates[..i], from, to), symbol, r)
    {
      var d := listed.value[i];
      assert d in dates && dates[..i + 1][..i] == dates[..i];
      GetStored(store.db, t, r, cache, d);
      var got := store.GetSession(t, r, d, symbol);
      HandedIs(cache[d], symbol, r);
      var kept := KeepInside(got.value.value, cache[d], symbol, r, from, to);
      HandedConcat(MarketCache.Serve(cache, dates[..i], from, to), Filter(cache[d], MarketCache.Inside(from, to)),
        symbol, r);
      out := out + kept;
    }
    assert dates[..|dates|] == dates;
    bars := Ok(out);
  }

  lemma HandedNothing(symbol: nat, r: Resolution)
    ensures AllStorable([]) && Handed([], symbol, r) == []
  {}

  lemma HandedIs(bars: seq<Candle>, symbol: nat, r: Resolution)
    requires AllStorable(bars)
    ensures Handed(bars, symbol, r) == Labelled(Records(bars), symbol, Code(r))
  {}

  lemma GetStored(db: seq<Entry>, t: string, r: Resolution, store: map<SessionDate, seq<Candle>>, d: SessionDate)
    requires Refines(db, t, r, store) && d in store
    ensures Writable(d) && AllStorable(store[d])
    ensures var blob := Lookup(db, SessionKey(t, r, d)); blob.Some? && Unpack(blob.value) == Ok(Records(store[d]))
  {
    hide Iso; hide Less; hide Lookup; hide Pack; hide Unpack; hide SessionKey; hide AllStorable; hide Records;
    hide Sorted; hide Canonical;
    assert Writable(d);
    GetRefines(db, t, r, store, d);
  }
}
