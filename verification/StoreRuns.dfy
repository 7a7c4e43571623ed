/** The bytes of the store over whole runs: whatever else is written in between, they always refine the
    state of the cache, so what is read from them is what the vendor has. */
module StoreRuns {
  import opened Domain
  import opened SessionCalendar
  import opened SessionKeys
  import opened Packing
  import opened BarStore
  import opened MarketCache
  import opened CacheCoverage
  import opened CacheLog
  import opened StoreRefinement
  import Requests = CacheRequests
  import Serving = CacheServe
  import opened CacheSafety

  // ---------------------------------------------------------------- the log of a run

  /** The log of a run leads to the store the run ends with. */
  lemma {:induction false} RunLeads(reqs: seq<Requests.Request>, h: seq<Candle>)
    ensures Leads(map[], RunLog(reqs, h), Requests.Run(reqs, h).store)
  {
    hide Leads; hide EnsureLog; hide Ensure; hide RowDates;
    if reqs == [] {
      NothingLeads(map[]);
    } else {
      var n := |reqs| - 1;
      var c := Requests.Run(reqs[..n], h);
      RunLeads(reqs[..n], h);
      EnsureLeads(c, reqs[n].now, reqs[n].from, reqs[n].to, h);
      LeadsThen(map[], RunLog(reqs[..n], h), c.store, EnsureLog(c, reqs[n].now, reqs[n].from, reqs[n].to, h),
        Requests.Run(reqs, h).store);
    }
  }

  /** The range starts no earlier than timestamps do. */
  ghost predicate Recent(c: Cache) { Ranged(c) ==> First(c) >= EPOCH }

  lemma FillRecent(c: Cache, c': Cache, w: set<SessionDate>, a: SessionDate, b: SessionDate, h: seq<Candle>)
    requires (c.row.None? || Ranged(c)) && Recent(c) && a >= EPOCH
    requires Fetched(c, c', w, h) && FillWrites(c, w, a, b, h)
    ensures Recent(c')
  {
    FetchGrows(c, c', w, h);
    hide IsSession; hide DayBars; hide HasBars; hide Fetched; hide Widened;
  }

  lemma FromIsRecent(ts: Timestamp)
    ensures FromIstDate(ts) >= EPOCH
  {
    hide FromIst; hide DayNumber;
    IstOrder(ts, EPOCH);
  }

  lemma DiscoverRecent(c: Cache, closedTo: SessionDate, h: seq<Candle>, now: Timestamp)
    requires c.row.None? && IsDate(closedTo)
    ensures Recent(Discover(c, closedTo, h, now))
  {
    hide IsDate; hide Discovered; hide MinDate; hide PutDays; hide SessionList; hide FromIst;
    if Discovered(h, now, closedTo) != [] { MinDateIsLeast(Discovered(h, now, closedTo)); }
  }

  /** The closed part of a request keeps the range recent and writes within [EPOCH, today]. */
  lemma ClosedRecent(c: Cache, now: Timestamp, from: Timestamp, to: Timestamp, h: seq<Candle>)
    requires InHours(h) && Sound(c, Today(now), h) && Recent(c) && RowDates(c)
    ensures Recent(EnsureClosed(c, now, from, to, h))
    ensures PutsWithin(ClosedLog(c, now, from, to, h), EPOCH, Today(now), h)
  {
    hide IsSession; hide IsDate; hide FromIst; hide PrevSession; hide DayBars; hide HasBars; hide ClosedTo;
    hide InHours;
    hide Today; hide FillClosed; hide Discover; hide Fetched; hide FillWrites; hide Sound; hide FillLog;
    hide DiscoverLog;
    hide PutsWithin;
    var b := ClosedTo(now, to);
    Requests.ClosedToBounds(now, to);
    Requests.SoundRow(c, Today(now), h);
    RowWithin(c, EPOCH, Today(now), h);
    if from == 0 && c.row.None? {
      DiscoverRecent(c, b, h, now);
      DiscoverWithin(c, b, h, now, Today(now));
    } else if from == 0 || FromIst(from) <= b {
      FromIsRecent(from);
      var a := if from == 0 then First(c) else FromIstDate(from);
      var w := FillClosedWrites(c, a, b, h, now);
      FillRecent(c, FillClosed(c, a, b, h, now), w, a, b, h);
      FillWithin(c, a, b, h, now, EPOCH, Today(now));
    }
  }

  lemma RefreshRecent(c: Cache, today: SessionDate, h: seq<Candle>, now: Timestamp)
    requires IsDate(today) && today >= EPOCH && (c.row.Some? ==> Ranged(c)) && Recent(c)
    ensures Recent(RefreshToday(c, today, h, now))
  {
    Requests.FetchOneDay(c, today, h, now);
    hide IsDate; hide PrevSession; hide ChunkBars; hide PutDays; hide LiveFresh; hide FetchAndStore;
    assert [today][..0] == [];
    assert Widen(RowOf(c), [today]) == WidenDay(RowOf(c), today);
  }

  /** A request keeps the range recent and puts only dates in [EPOCH, today], with bars of the history. */
  lemma EnsureWithin(c: Cache, now: Timestamp, from: Timestamp, to: Timestamp, h: seq<Candle>)
    requires InHours(h) && Sound(c, Today(now), h) && Recent(c) && RowDates(c)
    ensures Recent(Ensure(c, now, from, to, h))
    ensures PutsWithin(EnsureLog(c, now, from, to, h), EPOCH, Today(now), h)
  {
    hide IsSession; hide IsDate; hide FromIst; hide PrevSession; hide DayBars; hide HasBars; hide InHours; hide Today;
    hide Sound; hide Seal; hide EnsureClosed; hide RefreshToday; hide SealLog; hide ClosedLog; hide RefreshLog;
    hide PutsWithin; hide WantsToday; hide Sealed;
    var today := Today(now);
    LiveIsRecent(c, today, h);
    SealWithin(c, today, h, now, EPOCH, today);
    Requests.SealKeeps(c, today, h, now, false);
    var c1 := Seal(c, today, h, now);
    Requests.SoundRow(c, today, h);
    Requests.SoundRow(c1, today, h);
    ClosedRecent(c1, now, from, to, h);
    Requests.ClosedIff(c1, now, from, to, h, false);
    var c2 := EnsureClosed(c1, now, from, to, h);
    Requests.SoundRow(c2, today, h);
    var a, b := SealLog(c, today, h, now), ClosedLog(c1, now, from, to, h);
    WithinThen(a, b, EPOCH, today, h);
    if WantsToday(now, from, to) {
      RefreshRecent(c2, today, h, now);
      RefreshWithin(c2, today, h, now, EPOCH);
      WithinThen(a + b, RefreshLog(c2, today, h, now), EPOCH, today, h);
    } else {
      assert a + b + [] == a + b;
    }
  }

  lemma LiveIsRecent(c: Cache, today: SessionDate, h: seq<Candle>)
    requires Sound(c, today, h)
    ensures c.row.Some? && c.row.value.live.Some? ==> EPOCH <= c.row.value.live.value <= today
  {
    hide IsSession; hide IsDate; hide PrevSession; hide DayBars;
  }

  lemma WithinLater(log: seq<Write>, lo: SessionDate, hi: SessionDate, later: SessionDate, h: seq<Candle>)
    requires PutsWithin(log, lo, hi, h) && hi <= later
    ensures PutsWithin(log, lo, later, h)
  {
    hide TakenFrom; hide IsDate;
  }

  lemma {:induction false} RunWithin(reqs: seq<Requests.Request>, h: seq<Candle>)
    requires InHours(h) && Requests.ClockNeverTurnsBack(reqs)
    ensures Recent(Requests.Run(reqs, h))
    ensures PutsWithin(RunLog(reqs, h), EPOCH, Requests.LastToday(reqs), h)
  {
    hide IsSession; hide IsDate; hide DayBars; hide FromIst; hide Ensure; hide InHours; hide RowDates; hide Sound;
    hide EnsureLog; hide PutsWithin; hide Today; hide Serving.LiveIs;
    if reqs == [] {
      RowWithin(Requests.EMPTY_CACHE, EPOCH, EPOCH, h);
    } else {
      hide Recent;
      var n := |reqs| - 1;
      Requests.TodayGrows(reqs, n);
      RunWithin(reqs[..n], h);
      Serving.RunMeets(reqs, h, n);
      EnsureWithin(Requests.Run(reqs[..n], h), reqs[n].now, reqs[n].from, reqs[n].to, h);
      WithinLater(RunLog(reqs[..n], h), EPOCH, Requests.LastToday(reqs[..n]), Requests.LastToday(reqs), h);
      WithinThen(RunLog(reqs[..n], h),
        EnsureLog(Requests.Run(reqs[..n], h), reqs[n].now, reqs[n].from, reqs[n].to, h),
        EPOCH, Requests.LastToday(reqs), h);
    }
  }

  // ---------------------------------------------------------------- the puts as bytes

  /** The put_session calls of a log, for one ticker and resolution. */
  ghost function PutsOf(log: seq<Write>, t: string, r: Resolution): seq<Session> {
    if log == [] then []
    else
      var n := |log| - 1;
      PutsOf(log[..n], t, r) + match log[n] case Blob(d, bars, _) => [Session(t, r, d, bars)] case Row(_) => []
  }

  lemma ReplaysPrefix(store: map<SessionDate, seq<Candle>>, log: seq<Write>, k: nat)
    requires Replays(store, log) && k <= |log|
    ensures Replays(store, log[..k]) && Before(store, log[..k], k) == Before(store, log, k)
  {
    forall i | 0 <= i < k
      ensures log[..k][i].after.store ==
        match log[..k][i]
        case Blob(d, bars, _) => Before(store, log[..k], i)[d := bars]
        case Row(_) => Before(store, log[..k], i)
    {
      assert log[..k][i] == log[i] && Before(store, log[..k], i) == Before(store, log, i);
    }
  }

  lemma ModelMore(store: map<SessionDate, seq<Candle>>, t: string, r: Resolution, ps: seq<Session>, p: Session)
    ensures PutAllModel(store, t, r, ps + [p]) == PutModel(PutAllModel(store, t, r, ps), t, r, p)
    ensures PutAllModel(store, t, r, ps + []) == PutAllModel(store, t, r, ps)
  {
    hide PutModel;
    assert (ps + [p])[..|ps|] == ps && ps + [] == ps;
  }

  /** Replaying the puts of a log gives the store it leads to. */
  lemma {:induction false} PutsReplay(store: map<SessionDate, seq<Candle>>, log: seq<Write>, t: string, r: Resolution)
    requires Replays(store, log)
    ensures PutAllModel(store, t, r, PutsOf(log, t, r)) == Before(store, log, |log|)
  {
    if log != [] {
      var n := |log| - 1;
      ReplaysPrefix(store, log, n);
      PutsReplay(store, log[..n], t, r);
      assert log[n].after.store ==
        match log[n] case Blob(d, bars, _) => Before(store, log, n)[d := bars] case Row(_) => Before(store, log, n);
      hide Replays; hide PutAllModel;
      var p := if log[n].Blob? then Session(t, r, log[n].date, log[n].bars) else Session(t, r, 0, []);
      ModelMore(store, t, r, PutsOf(log[..n], t, r), p);
    }
  }

  lemma {:induction false} PutsAcceptable(log: seq<Write>, t: string, r: Resolution, hi: SessionDate, h: seq<Candle>)
    requires PutsWithin(log, EPOCH, hi, h) && hi < 100_000_000 && AllStorable(h) && |h| < TWO_32
    ensures forall p :: p in PutsOf(log, t, r) ==> Acceptable(p) && p.ticker == t && p.resolution == r
  {
    hide IsDate; hide AllStorable; hide TakenFrom; hide Dated;
    if log != [] {
      var n := |log| - 1;
      PutsAcceptable(log[..n], t, r, hi, h);
      if log[n].Blob? {
        TakenStorable(log[n].bars, h);
        RecentIsDated(log[n].date, hi);
      }
    }
  }

  lemma TakenStorable(bars: seq<Candle>, h: seq<Candle>)
    requires TakenFrom(bars, h) && AllStorable(h)
    ensures AllStorable(bars) && |bars| <= |h|
  {
    hide Storable;
  }

  lemma RecentIsDated(d: SessionDate, hi: SessionDate)
    requires IsDate(d) && EPOCH <= d <= hi < 100_000_000
    ensures Dated(d)
  {
    hide Leap;
  }

  // ---------------------------------------------------------------- other tickers in between

  /** The writes for one ticker and resolution among all writes. */
  function Own(ps: seq<Session>, t: string, r: Resolution): seq<Session> {
    if ps == [] then []
    else
      var p := ps[|ps| - 1];
      Own(ps[..|ps| - 1], t, r) + if p.ticker == t && p.resolution == r then [p] else []
  }

  lemma {:induction false} OthersDoNotMatter(store: map<SessionDate, seq<Candle>>, ps: seq<Session>, t: string,
                                             r: Resolution)
    ensures PutAllModel(store, t, r, ps) == PutAllModel(store, t, r, Own(ps, t, r))
  {
    if ps != [] {
      var n := |ps| - 1;
      OthersDoNotMatter(store, ps[..n], t, r);
      var own := Own(ps[..n], t, r);
      if ps[n].ticker == t && ps[n].resolution == r { assert (own + [ps[n]])[..|own|] == own; }
      else { assert own + [] == own; }
    }
  }

  lemma {:induction false} OwnIn(ps: seq<Session>, t: string, r: Resolution)
    ensures forall p :: p in ps && p.ticker == t && p.resolution == r ==> p in Own(ps, t, r)
  {
    if ps != [] {
      OwnIn(ps[..|ps| - 1], t, r);
      assert ps == ps[..|ps| - 1] + [ps[|ps| - 1]];
    }
  }

  /** ps are all writes to the store up to write k of the run, those of other tickers included in any
      order; other writers respect the limits of the blob format. */
  ghost predicate Interleaves(ps: seq<Session>, t: string, r: Resolution, log: seq<Write>) {
    && Own(ps, t, r) == PutsOf(log, t, r)
    && forall p :: p in ps ==> (p.ticker == t && p.resolution == r) || Acceptable(p)
  }

  /** All writes are acceptable, and the bytes they make refine the map the log leads to. */
  lemma LogRefines(ps: seq<Session>, t: string, r: Resolution, log: seq<Write>, hi: SessionDate, h: seq<Candle>)
    requires Replays(map[], log) && PutsWithin(log, EPOCH, hi, h) && hi < 100_000_000
    requires AllStorable(h) && |h| < TWO_32 && Interleaves(ps, t, r, log)
    ensures forall p :: p in ps ==> Acceptable(p)
    ensures Refines(PutAllBytes([], ps), t, r, Before(map[], log, |log|))
  {
    hide Acceptable; hide Refines; hide PutAllBytes; hide PutAllModel; hide AllStorable; hide Replays; hide PutsWithin;
    hide Own; hide PutsOf;
    PutsAcceptable(log, t, r, hi, h);
    OwnIn(ps, t, r);
    EmptyRefines(t, r);
    PutAllRefines([], t, r, map[], ps);
    OthersDoNotMatter(map[], ps, t, r);
    PutsReplay(map[], log, t, r);
  }

  lemma WithinPrefix(log: seq<Write>, k: nat, lo: SessionDate, hi: SessionDate, h: seq<Candle>)
    requires PutsWithin(log, lo, hi, h) && k <= |log|
    ensures PutsWithin(log[..k], lo, hi, h)
  {
    hide TakenFrom; hide IsDate;
  }

  /** After every single write of every run, with any writes of other tickers in between, the bytes refine
      the state of the cache at that point. */
  lemma BytesRefineEveryWrite(ps: seq<Session>, t: string, r: Resolution, reqs: seq<Requests.Request>, h: seq<Candle>,
                              k: nat)
    requires InHours(h) && AllStorable(h) && |h| < TWO_32
    requires Requests.ClockNeverTurnsBack(reqs) && Serving.LastNow(reqs) < TWO_63
    requires k <= |RunLog(reqs, h)| && Interleaves(ps, t, r, RunLog(reqs, h)[..k])
    ensures forall p :: p in ps ==> Acceptable(p)
    ensures Refines(PutAllBytes([], ps), t, r, Before(map[], RunLog(reqs, h), k))
  {
    hide Refines; hide Acceptable; hide PutAllBytes; hide AllStorable; hide Interleaves; hide InHours; hide RunLog;
    hide PutsWithin; hide Recent; hide Requests.Run; hide FromIst;
    var log, hi := RunLog(reqs, h), Requests.LastToday(reqs);
    RunLeads(reqs, h);
    RunWithin(reqs, h);
    if reqs != [] { StampDates(reqs[|reqs| - 1].now); }
    ReplaysPrefix(map[], log, k);
    WithinPrefix(log, k, EPOCH, hi, h);
    LogRefines(ps, t, r, log[..k], hi, h);
  }

  /** The bytes reached by the writes of any run refine the store the run ends with. */
  lemma BytesRefineRun(ps: seq<Session>, t: string, r: Resolution, reqs: seq<Requests.Request>, h: seq<Candle>)
    requires InHours(h) && AllStorable(h) && |h| < TWO_32
    requires Requests.ClockNeverTurnsBack(reqs) && Serving.LastNow(reqs) < TWO_63
    requires Interleaves(ps, t, r, RunLog(reqs, h))
    ensures forall p :: p in ps ==> Acceptable(p)
    ensures Refines(PutAllBytes([], ps), t, r, Requests.Run(reqs, h).store)
  {
    hide Refines; hide Acceptable; hide PutAllBytes; hide AllStorable; hide Interleaves; hide InHours; hide RunLog;
    hide Requests.Run; hide Replays;
    var log := RunLog(reqs, h);
    assert log[..|log|] == log;
    BytesRefineEveryWrite(ps, t, r, reqs, h, |log|);
    RunLeads(reqs, h);
  }

  // ---------------------------------------------------------------- reading the answers off the bytes

  /** Without bar signs in the tickers all keys are plain. */
  lemma {:induction false} PlainPuts(ps: seq<Session>)
    requires forall p :: p in ps ==> Acceptable(p) && '|' !in p.ticker
    ensures Sorted(PutAllBytes([], ps))
    ensures forall e :: e in PutAllBytes([], ps) ==> PlainKey(e.key)
  {
    hide Less; hide Iso; hide SessionKey; hide Plausible; hide AllStorable; hide Put; hide Pack; hide Records;
    if ps != [] {
      var n := |ps| - 1;
      PlainPuts(ps[..n]);
      var p := ps[n];
      assert p in ps;
      PutSorted(PutAllBytes([], ps[..n]), SessionKey(p.ticker, p.resolution, p.date), Pack(Records(p.bars)));
    }
  }

  /** The store holds what these writes made of an empty one. */
  ghost predicate WrittenBy(db: seq<Entry>, ps: seq<Session>) {
    (forall p :: p in ps ==> Acceptable(p)) && db == PutAllBytes([], ps)
  }

  lemma NothingAliased(db: seq<Entry>, ps: seq<Session>, t: string, r: Resolution, lo: SessionDate, hi: SessionDate)
    requires WrittenBy(db, ps) && '|' !in t && (forall p :: p in ps ==> '|' !in p.ticker)
    requires lo < 100_000_000 && hi < 100_000_000
    ensures Unaliased(db, t, r, lo, hi)
  {
    hide PutAllBytes; hide Acceptable; hide Unaliased; hide PlainKey;
    PlainPuts(ps);
    forall i | 0 <= i < |db| ensures PlainKey(db[i].key) { assert db[i] in db; }
    PlainIsUnaliased(db, t, r, lo, hi);
  }

  lemma AnswerStorable(h: seq<Candle>, now: Timestamp, from: Timestamp, to: Timestamp, t: Timestamp)
    requires AllStorable(h)
    ensures AllStorable(Serving.Answer(h, now, from, to, t))
  {
    hide AllStorable;
    StorablePart(h, ServedAt(now, from, to));
    StorablePart(Vendor(h, now, from, to), Serving.Seen(Today(now), t));
  }

  /** Down to the bytes, load_bars is transparent: on a store that holds the writes of any run of requests,
      with any writes of other tickers in between, what is read is exactly what the vendor has for the last
      request, today's bars at most half an hour old, if and only if no such bar lies on a skipped date. When
      the requests before it fit, it always is. */
  method LoadVendorBars(store: RocksBarStore, t: string, r: Resolution, symbol: nat,
                        now: Timestamp, from: Timestamp, to: Timestamp,
                        ghost met: seq<Requests.Request>, ghost ps: seq<Session>, ghost h: seq<Candle>)
    returns (bars: Result<seq<Unpacked>>)
    requires store.Valid() && store.isOpen && now < TWO_63 && from < TWO_63
    requires InHours(h) && Serving.Chronological(h) && AllStorable(h) && |h| < TWO_32
    requires Requests.ClockNeverTurnsBack(met + [Requests.Request(now, from, to)])
    requires '|' !in t && forall p :: p in ps ==> '|' !in p.ticker
    requires Interleaves(ps, t, r, RunLog(met + [Requests.Request(now, from, to)], h)) && WrittenBy(store.db, ps)
    ensures var c := Requests.Run(met + [Requests.Request(now, from, to)], h);
      var answer := Serving.Answer(h, now, from, to, Serving.AsOf(c, now));
      && AllStorable(answer)
      && (WantsToday(now, from, to) ==> now - Serving.AsOf(c, now) <= 1_800_000_000_000)
      && (bars == Ok(Handed(answer, symbol, r)) <==>
          Serving.NothingSkipped(Seal(Requests.Run(met, h), Today(now), h, now), now, from, to, h))
      && (Requests.AllFit(met, h, false) && (from != 0 || Requests.Run(met, h).row.None?) ==>
            bars == Ok(Handed(answer, symbol, r)))
  {
    hide Ensure; hide Serving.Answer; hide Serving.AsOf; hide Serving.LiveIs; hide Serving.Chronological; hide InHours;
    hide Sound;
    hide HoldsAll; hide Serve; hide AllStorable; hide Handed; hide Refines; hide Unaliased; hide Sorted;
    hide Canonical; hide Lists; hide RowDates; hide WantsToday; hide RunLog; hide Interleaves; hide PutAllBytes;
    hide Requests.RequestFits; hide Serving.NothingSkipped; hide FromIst; hide Seal; hide IsDate;
    ghost var reqs := met + [Requests.Request(now, from, to)];
    ghost var n := |reqs| - 1;
    assert reqs[..n] == met && reqs[n] == Requests.Request(now, from, to);
    ghost var c := Requests.Run(reqs, h);
    ghost var answer := Serving.Answer(h, now, from, to, Serving.AsOf(c, now));
    BytesRefineRun(ps, t, r, reqs, h);
    Bounds(now, from, to);
    NothingAliased(store.db, ps, t, r, LowBound(from), HighBound(now, to));
    AnswerStorable(h, now, from, to, Serving.AsOf(c, now));
    ghost var dates;
    bars, dates := LoadStored(store, t, r, symbol, now, from, to, c.store);
    Serving.RunMeets(reqs, h, n);
    Serving.TransparentIff(Requests.Run(met, h), now, from, to, h, dates);
    if bars == Ok(Handed(answer, symbol, r)) { HandedEqual(Serve(c.store, dates, from, to), answer, symbol, r); }
    if Requests.AllFit(met, h, false) && (from != 0 || Requests.Run(met, h).row.None?) {
      Serving.RunServes(reqs, h, dates);
    }
  }
}
