/** Whole requests, write by write: when the range is free of missing keys after every single write. */
module CacheSafety {
  import opened Domain
  import opened Selection
  import opened SessionCalendar
  import opened Chunker
  import opened MarketCache
  import opened CacheCoverage
  import opened CacheRequests
  import opened CacheLog
  import opened CacheWrites

  // ---------------------------------------------------------------- the end of a safe log

  /** A fetch whose every write is safe ends safely. */
  lemma {:induction false} SafeFetchHolds(c: Cache, chunks: seq<seq<SessionDate>>, leftExtend: bool, h: seq<Candle>,
                                          now: Timestamp, strict: bool)
    requires AllChunks(chunks) && HoldsAll(c, h, strict)
    requires Safe(FetchLog(c, chunks, leftExtend, h, now), h, strict)
    ensures HoldsAll(FetchChunks(c, chunks, leftExtend, h, now), h, strict)
    decreases |chunks|
  {
    hide HoldsAll; hide ChunkLog; hide StoreChunk; hide ChunkBars; hide ToWrite; hide Safe; hide IsDate;
    if chunks != [] {
      var bars := ChunkBars(h, now, chunks[0]);
      var w := ToWrite(chunks[0], bars, leftExtend);
      var c1 := StoreChunk(c, w, bars);
      SafeConcat(ChunkLog(c, w, bars), FetchLog(c1, chunks[1..], leftExtend, h, now), h, strict);
      if w == [] { NothingStored(c, bars, h, strict); } else { LastOfChunk(c, w, bars, h, strict); }
      SafeFetchHolds(c1, chunks[1..], leftExtend, h, now, strict);
    }
  }

  lemma NothingStored(c: Cache, bars: seq<Candle>, h: seq<Candle>, strict: bool)
    requires HoldsAll(c, h, strict)
    ensures HoldsAll(StoreChunk(c, [], bars), h, strict)
    ensures ChunkLog(c, [], bars) == []
  {
    hide HasBars; hide IsSession;
  }

  lemma SafeDaysHold(c: Cache, days: seq<SessionDate>, leftExtend: bool, h: seq<Candle>, now: Timestamp, strict: bool)
    requires AllDates(days) && HoldsAll(c, h, strict) && Safe(DaysLog(c, days, leftExtend, h, now), h, strict)
    ensures HoldsAll(FetchAndStore(c, days, leftExtend, h, now), h, strict)
  {
    hide HoldsAll; hide Safe; hide Greedy; hide FetchLog; hide FetchChunks; hide AllDates;
    GreedyChunks(days);
    SafeFetchHolds(c, Greedy(days), leftExtend, h, now, strict);
  }

  lemma NoDaysSafe(c: Cache, leftExtend: bool, h: seq<Candle>, now: Timestamp, strict: bool)
    ensures Safe(DaysLog(c, [], leftExtend, h, now), h, strict) && FetchAndStore(c, [], leftExtend, h, now) == c
  {
    GreedyOfNothing();
  }

  // ---------------------------------------------------------------- the first fetch of all

  /** days skip no needed day from lo on. */
  ghost predicate Gapless(days: seq<SessionDate>, lo: SessionDate, h: seq<Candle>, strict: bool) {
    && (forall d :: d in days ==> lo <= d && IsSession(d))
    && (forall d, e :: e in days && Needed(h, d, strict) && lo <= d <= e ==> d in days)
  }

  ghost predicate AllBars(days: seq<SessionDate>, h: seq<Candle>) { forall d :: d in days ==> HasBars(h, d) }

  /** Later chunks of the first fetch continue the range, whatever bare days they drop. */
  lemma {:induction false} FollowSafe(c: Cache, chunks: seq<seq<SessionDate>>, h: seq<Candle>, now: Timestamp,
                                      strict: bool)
    requires InHours(h) && ClosedChunks(chunks, Today(now)) && Increasing(Concat(chunks))
    requires HoldsAll(c, h, strict) && Continues(c, Concat(chunks), h, strict)
    requires strict ==> AllBars(Concat(chunks), h)
    ensures Safe(FetchLog(c, chunks, true, h, now), h, strict)
    decreases |chunks|
  {
    hide IsDate; hide FromIst; hide ChunkBars; hide DayBars; hide Today; hide InHours; hide HasBars; hide IsSession;
    hide HoldsAll; hide Continues; hide StoreChunk; hide ChunkLog; hide Increasing; hide Safe; hide DropBare;
    hide AllDates;
    hide Fetched; hide WrittenFrom; hide AllBars;
    if chunks == [] {
      NothingUnsafe(h, strict);
    } else {
      var days, rest := chunks[0], Concat(chunks[1..]);
      var bars := ChunkBars(h, now, days);
      var w := DropBare(days, bars);
      var c1 := StoreChunk(c, w, bars);
      ChunkWrites(h, now, days, true, c);
      if w == [] {
        NothingStored(c, bars, h, strict);
        NothingUnsafe(h, strict);
        SkippedFollows(c, c1, bars, days, rest, h, strict);
      } else {
        FollowStep(c, c1, w, days, rest, h, strict);
        ChunkLogSafe(c, w, bars, h, strict);
      }
      FollowSafe(c1, chunks[1..], h, now, strict);
      SafeConcat(ChunkLog(c, w, bars), FetchLog(c1, chunks[1..], true, h, now), h, strict);
    }
  }

  lemma TailBars(days: seq<SessionDate>, rest: seq<SessionDate>, h: seq<Candle>)
    requires AllBars(days + rest, h)
    ensures AllBars(days, h) && AllBars(rest, h)
  {
    hide HasBars;
    forall d | d in days ensures HasBars(h, d) { assert d in days + rest; }
    forall d | d in rest ensures HasBars(h, d) { assert d in days + rest; }
  }

  /** A chunk without bars writes nothing, and skips no needed day. */
  lemma SkippedFollows(c: Cache, c1: Cache, bars: seq<Candle>, days: seq<SessionDate>, rest: seq<SessionDate>,
                       h: seq<Candle>, strict: bool)
    requires c1 == StoreChunk(c, [], bars) && WrittenFrom(Days([]), days, true, h) && days != []
    requires Increasing(days + rest) && Continues(c, days + rest, h, strict)
    requires strict ==> AllBars(days + rest, h)
    ensures Continues(c1, rest, h, strict) && Increasing(rest) && (strict ==> AllBars(rest, h))
  {
    hide HasBars; hide IsSession; hide Increasing; hide AllBars; hide DayBars;
    HeadThenTail(days, rest);
    if strict { TailBars(days, rest, h); SomeDayIsBare(days, h); }
    forall d | d in days ensures !HasBars(h, d) { assert d !in Days([]); }
    forall d, e | e in rest && Needed(h, d, strict) && Last(c1) < d <= e ensures d in rest {
      assert e in days + rest;
      assert d in days + rest;
    }
  }

  lemma SomeDayIsBare(days: seq<SessionDate>, h: seq<Candle>)
    requires WrittenFrom(Days([]), days, true, h) && days != []
    ensures !AllBars(days, h)
  {
    hide HasBars;
    var d := days[0];
    assert d in days;
    WrittenIs(Days([]), days, true, h, d);
  }

  lemma WrittenBoth(w: set<SessionDate>, days: seq<SessionDate>, h: seq<Candle>)
    requires WrittenFrom(w, days, true, h)
    ensures forall d :: d in w ==> d in days
    ensures forall d :: d in days && HasBars(h, d) ==> d in w
  {
    hide HasBars;
  }

  lemma FollowStep(c: Cache, c1: Cache, w: seq<SessionDate>, days: seq<SessionDate>, rest: seq<SessionDate>,
                   h: seq<Candle>, strict: bool)
    requires Fetched(c, c1, Days(w), h) && WrittenFrom(Days(w), days, true, h) && w != [] && days != []
    requires Increasing(days + rest) && HoldsAll(c, h, strict) && Continues(c, days + rest, h, strict)
    requires strict ==> AllBars(days + rest, h)
    ensures HoldsAll(c1, h, strict) && Continues(c1, rest, h, strict) && Increasing(rest)
    ensures strict ==> AllBars(rest, h)
  {
    ContinuesRanged(c, days + rest, h, strict);
    FetchGrows(c, c1, Days(w), h);
    hide DayBars; hide HasBars; hide IsSession; hide Fetched; hide Increasing; hide AllBars; hide HoldsAll;
    hide Continues; hide Grown; hide WrittenFrom; hide Days;
    BeforeRest(days, rest);
    if strict { TailBars(days, rest, h); }
    WrittenBoth(Days(w), days, h);
    FollowHolds(c, c1, Days(w), days, rest, h, strict);
    FollowContinues(c, c1, Days(w), days, rest, h, strict);
  }

  lemma ContinuesRanged(c: Cache, days: seq<SessionDate>, h: seq<Candle>, strict: bool)
    requires Continues(c, days, h, strict)
    ensures Ranged(c)
  {
    hide HasBars; hide IsSession;
  }

  lemma FollowHolds(c: Cache, c1: Cache, ws: set<SessionDate>, days: seq<SessionDate>, rest: seq<SessionDate>,
                    h: seq<Candle>, strict: bool)
    requires Grown(c, c1, ws) && Continues(c, days + rest, h, strict) && HoldsAll(c, h, strict)
    requires forall d :: d in ws ==> d in days
    requires forall d :: d in days && HasBars(h, d) ==> d in ws
    requires strict ==> AllBars(days, h)
    requires forall d, e :: d in days && e in rest ==> d < e
    ensures HoldsAll(c1, h, strict)
  {
    hide HasBars; hide IsSession;
    if Ranged(c1) {
      forall d | d in ws ensures d in days + rest && Last(c) < d {}
      forall d | Needed(h, d, strict) && First(c1) <= d <= Last(c1) ensures d in c1.store {
        if d <= Last(c) { assert d in c.store.Keys; }
        else { assert d in days + rest; assert d !in rest; assert d in ws; }
        assert d in c1.store.Keys;
      }
    }
  }

  lemma FollowContinues(c: Cache, c1: Cache, ws: set<SessionDate>, days: seq<SessionDate>, rest: seq<SessionDate>,
                        h: seq<Candle>, strict: bool)
    requires Grown(c, c1, ws) && Continues(c, days + rest, h, strict)
    requires forall d :: d in ws ==> d in days
    requires forall d :: d in days && HasBars(h, d) ==> d in ws
    requires strict ==> AllBars(days, h)
    requires forall d, e :: d in days && e in rest ==> d < e
    ensures Continues(c1, rest, h, strict)
  {
    hide HasBars; hide IsSession;
    forall d | d in ws ensures d in days + rest && Last(c) < d {}
    forall d | d in rest ensures Last(c1) < d { assert d in days + rest; }
    forall d, e | e in rest && Needed(h, d, strict) && Last(c1) < d <= e ensures d in rest {
      assert e in days + rest && d in days + rest;
    }
  }

  /** The first fetch of all: every intermediate state is free of missing keys. */
  lemma {:induction false} FreshSafe(c: Cache, chunks: seq<seq<SessionDate>>, h: seq<Candle>, now: Timestamp,
                                     lo: SessionDate, strict: bool)
    requires InHours(h) && ClosedChunks(chunks, Today(now)) && Increasing(Concat(chunks))
    requires c.row.None? && Gapless(Concat(chunks), lo, h, strict) && (strict ==> Dense(h, Today(now)))
    ensures Safe(FetchLog(c, chunks, true, h, now), h, strict)
    decreases |chunks|
  {
    hide IsDate; hide FromIst; hide ChunkBars; hide DayBars; hide Today; hide InHours; hide HasBars; hide IsSession;
    hide HoldsAll; hide Gapless; hide StoreChunk; hide ChunkLog; hide Increasing; hide Safe; hide DropBare;
    hide AllDates;
    hide Fetched; hide WrittenFrom; hide AllBars; hide Continues; hide Dense;
    if chunks == [] {
      NothingUnsafe(h, strict);
    } else {
      var days, rest := chunks[0], Concat(chunks[1..]);
      var bars := ChunkBars(h, now, days);
      var w := DropBare(days, bars);
      var c1 := StoreChunk(c, w, bars);
      ChunkWrites(h, now, days, true, c);
      ConcatClosed(chunks, Today(now));
      NoRowHolds(c, h, strict);
      if w == [] {
        NothingStored(c, bars, h, strict);
        NothingUnsafe(h, strict);
        SkippedGapless(days, rest, lo, h, strict);
        NoRowYet(c, bars);
        FreshSafe(c1, chunks[1..], h, now, days[|days| - 1] + 1, strict);
      } else {
        FreshStep(c, c1, w, days, rest, lo, h, Today(now), strict);
        ChunkLogSafe(c, w, bars, h, strict);
        FollowSafe(c1, chunks[1..], h, now, strict);
      }
      SafeConcat(ChunkLog(c, w, bars), FetchLog(c1, chunks[1..], true, h, now), h, strict);
    }
  }

  lemma NoRowHolds(c: Cache, h: seq<Candle>, strict: bool)
    requires c.row.None?
    ensures HoldsAll(c, h, strict)
  {}

  lemma NoRowYet(c: Cache, bars: seq<Candle>)
    ensures StoreChunk(c, [], bars).row == c.row
  {}

  lemma SkippedGapless(days: seq<SessionDate>, rest: seq<SessionDate>, lo: SessionDate, h: seq<Candle>, strict: bool)
    requires Increasing(days + rest) && days != [] && Gapless(days + rest, lo, h, strict)
    ensures Increasing(rest) && Gapless(rest, days[|days| - 1] + 1, h, strict)
  {
    hide HasBars; hide IsSession; hide Increasing;
    HeadThenTail(days, rest);
    var last := days[|days| - 1];
    assert last in days && last in days + rest;
    forall d | d in rest ensures last + 1 <= d && IsSession(d) { assert d in days + rest; }
    forall d, e | e in rest && Needed(h, d, strict) && last + 1 <= d <= e ensures d in rest {
      assert e in days + rest && d in days + rest;
    }
  }

  /** The first chunk with bars opens the range. */
  lemma FreshStep(c: Cache, c1: Cache, w: seq<SessionDate>, days: seq<SessionDate>, rest: seq<SessionDate>,
                  lo: SessionDate, h: seq<Candle>, today: SessionDate, strict: bool)
    requires Fetched(c, c1, Days(w), h) && WrittenFrom(Days(w), days, true, h) && w != [] && days != []
    requires c.row.None? && Increasing(days + rest) && Gapless(days + rest, lo, h, strict)
    requires (strict ==> Dense(h, today)) && forall d :: d in days + rest ==> d < today
    ensures HoldsAll(c1, h, strict) && Continues(c1, rest, h, strict) && Increasing(rest)
    ensures strict ==> AllBars(rest, h)
  {
    hide DayBars; hide HasBars; hide IsSession; hide Fetched; hide Increasing; hide AllBars; hide Dense; hide Gapless;
    hide HoldsAll; hide Continues; hide WrittenFrom; hide Days; hide Grown;
    BeforeRest(days, rest);
    GaplessSessions(days + rest, lo, h, strict);
    var x := FreshRange(c, c1, w, days, h);
    WrittenBoth(Days(w), days, h);
    SpanStored(c1, Days(w), days, rest, lo, h, today, x, strict);
    SpanContinues(c1, Days(w), days, rest, lo, h, today, x, strict);
    if strict { RestHasBars(h, days, rest, today, x); }
  }

  lemma GaplessSessions(days: seq<SessionDate>, lo: SessionDate, h: seq<Candle>, strict: bool)
    requires Gapless(days, lo, h, strict)
    ensures forall d :: d in days ==> IsSession(d)
  {
    hide HasBars; hide IsSession;
  }

  lemma FreshRange(c: Cache, c1: Cache, w: seq<SessionDate>, days: seq<SessionDate>, h: seq<Candle>)
    returns (x: SessionDate)
    requires Fetched(c, c1, Days(w), h) && WrittenFrom(Days(w), days, true, h) && w != [] && c.row.None?
    ensures Ranged(c1) && First(c1) in Days(w) && Last(c1) in Days(w)
    ensures forall d :: d in Days(w) ==> d in c1.store && First(c1) <= d <= Last(c1)
    ensures x in days && x <= First(c1) && HasBars(h, x)
  {
    FetchGrows(c, c1, Days(w), h);
    hide DayBars; hide HasBars; hide Fetched; hide WrittenFrom; hide Grown;
    var d0 := w[0];
    assert d0 in w && d0 in Days(w);
    FreshSpan(c, c1, Days(w), d0);
    FirstHasBars(Days(w), days, h, First(c1));
    x :| x in days && x <= First(c1) && HasBars(h, x);
  }

  lemma FreshSpan(c: Cache, c1: Cache, ws: set<SessionDate>, d0: SessionDate)
    requires Grown(c, c1, ws) && c.row.None? && d0 in ws
    ensures Ranged(c1) && First(c1) in ws && Last(c1) in ws
    ensures forall d :: d in ws ==> d in c1.store && First(c1) <= d <= Last(c1)
  {
    forall d | d in ws ensures d in c1.store { assert d in c1.store.Keys; }
  }

  lemma {:induction false} ConcatClosed(chunks: seq<seq<SessionDate>>, today: SessionDate)
    requires ClosedChunks(chunks, today)
    ensures forall d :: d in Concat(chunks) ==> d < today
  {
    hide AllDates; hide Increasing;
    if chunks != [] { ConcatClosed(chunks[1..], today); }
  }

  lemma FirstHasBars(w: set<SessionDate>, days: seq<SessionDate>, h: seq<Candle>, e: SessionDate)
    requires WrittenFrom(w, days, true, h) && e in w
    ensures exists x :: x in days && x <= e && HasBars(h, x)
  {
    hide HasBars;
    Earlier(w, w, days, true, h, e);
    var x :| x in w && x <= e && HasBars(h, x);
    assert x in days;
  }

  lemma LaterHasBars(h: seq<Candle>, days: seq<SessionDate>, rest: seq<SessionDate>, today: SessionDate, x: SessionDate,
                     d: SessionDate)
    requires Dense(h, today) && x in days && HasBars(h, x) && x <= d && (d in days || d in rest)
    requires forall e :: e in days + rest ==> e < today && IsSession(e)
    ensures HasBars(h, d)
  {
    hide Dense; hide HasBars; hide IsSession;
    assert x in days + rest && d in days + rest;
    DenseFrom(h, today, x, d);
  }

  lemma RestHasBars(h: seq<Candle>, days: seq<SessionDate>, rest: seq<SessionDate>, today: SessionDate, x: SessionDate)
    requires Dense(h, today) && x in days && HasBars(h, x)
    requires forall e :: e in days + rest ==> e < today && IsSession(e)
    requires forall d, e :: d in days && e in rest ==> d < e
    ensures AllBars(rest, h)
  {
    hide Dense; hide HasBars; hide IsSession;
    forall d | d in rest ensures HasBars(h, d) { LaterHasBars(h, days, rest, today, x, d); }
  }

  /** Every needed day the new range spans was written. */
  lemma SpanStored(c1: Cache, ws: set<SessionDate>, days: seq<SessionDate>, rest: seq<SessionDate>, lo: SessionDate,
                   h: seq<Candle>, today: SessionDate, x: SessionDate, strict: bool)
    requires Ranged(c1) && First(c1) in ws && Last(c1) in ws && Gapless(days + rest, lo, h, strict)
    requires forall d :: d in ws ==> d in days && d in c1.store
    requires forall d :: d in days && HasBars(h, d) ==> d in ws
    requires x in days && x <= First(c1) && HasBars(h, x) && (strict ==> Dense(h, today))
    requires forall e :: e in days + rest ==> e < today && IsSession(e)
    requires forall d, e :: d in days && e in rest ==> d < e
    ensures HoldsAll(c1, h, strict)
  {
    hide HasBars; hide IsSession; hide Dense;
    var last := Last(c1);
    assert First(c1) in days + rest && last in days && last in days + rest;
    forall d | Needed(h, d, strict) && First(c1) <= d <= last ensures d in c1.store {
      assert d in days + rest;
      assert d !in rest;
      if strict { LaterHasBars(h, days, rest, today, x, d); }
    }
  }

  lemma SpanContinues(c1: Cache, ws: set<SessionDate>, days: seq<SessionDate>, rest: seq<SessionDate>, lo: SessionDate,
                      h: seq<Candle>, today: SessionDate, x: SessionDate, strict: bool)
    requires Ranged(c1) && First(c1) in ws && Last(c1) in ws && Gapless(days + rest, lo, h, strict)
    requires forall d :: d in ws ==> d in days && First(c1) <= d <= Last(c1)
    requires forall d :: d in days && HasBars(h, d) ==> d in ws
    requires x in days && x <= First(c1) && HasBars(h, x) && (strict ==> Dense(h, today))
    requires forall e :: e in days + rest ==> e < today && IsSession(e)
    requires forall d, e :: d in days && e in rest ==> d < e
    ensures Continues(c1, rest, h, strict)
  {
    hide HasBars; hide IsSession; hide Dense;
    var last := Last(c1);
    assert last in days && last in days + rest;
    forall d, e | e in rest && Needed(h, d, strict) && last < d <= e ensures d in rest {
      assert e in days + rest && d in days + rest;
      if d in days {
        if strict { LaterHasBars(h, days, rest, today, x, d); }
      }
    }
  }

  // ---------------------------------------------------------------- the closed part of a request

  /** The days a closed request adds before the range, if any, need one chunk only. */
  ghost predicate LeftFits(c: Cache, a: SessionDate, b: SessionDate, h: seq<Candle>, strict: bool) {
    if !IsDate(a) || !Ranged(c) then true
    else
      PickedDates(a, b, IsLeft(c));
      OneChunkNeeded(Greedy(LeftDays(c, a, b)), h, strict)
  }

  lemma NoBarsOneChunk(chunks: seq<seq<SessionDate>>, h: seq<Candle>, strict: bool)
    requires forall d :: d in Concat(chunks) ==> !HasBars(h, d)
    ensures OneChunkNeeded(chunks, h, strict)
  {
    hide HasBars; hide Needed;
    forall i | 0 <= i < |chunks| ensures !ChunkHasBars(h, chunks[i]) {
      forall d | d in chunks[i] ensures !HasBars(h, d) { InConcat(chunks, i, d); }
    }
  }

  /** Days without bars before the range are not written at all. */
  lemma {:induction false} BareLeftSafe(c: Cache, chunks: seq<seq<SessionDate>>, h: seq<Candle>, now: Timestamp,
                                        strict: bool)
    requires InHours(h) && ClosedChunks(chunks, Today(now)) && HoldsAll(c, h, strict)
    requires forall d :: d in Concat(chunks) ==> !HasBars(h, d)
    ensures Safe(FetchLog(c, chunks, true, h, now), h, strict)
    decreases |chunks|
  {
    hide IsDate; hide ChunkBars; hide Today; hide InHours; hide HasBars; hide HoldsAll; hide StoreChunk; hide ChunkLog;
    hide Increasing; hide Safe; hide DropBare; hide AllDates;
    NothingUnsafe(h, strict);
    if chunks != [] {
      var days := chunks[0];
      var bars := ChunkBars(h, now, days);
      ChunkServed(h, now, days);
      forall d | d in days ensures DayBars(bars, d) == [] {
        assert d in Concat(chunks);
        NoBarsNoDay(h, d);
      }
      AllDropped(days, bars);
      NothingStored(c, bars, h, strict);
      assert Concat(chunks) == days + Concat(chunks[1..]);
      BareLeftSafe(StoreChunk(c, [], bars), chunks[1..], h, now, strict);
      SafeConcat([], FetchLog(StoreChunk(c, [], bars), chunks[1..], true, h, now), h, strict);
    }
  }

  lemma NoBarsNoDay(h: seq<Candle>, d: SessionDate)
    requires !HasBars(h, d)
    ensures DayBars(h, d) == []
  {}

  lemma {:induction false} AllDropped(days: seq<SessionDate>, bars: seq<Candle>)
    requires forall d :: d in days ==> DayBars(bars, d) == []
    ensures DropBare(days, bars) == []
  {
    hide DayBars;
    if days != [] { AllDropped(days[1..], bars); }
  }

  /** Writing the days before the range is safe exactly when one chunk is needed. */
  lemma LeftSafeIff(c: Cache, a: SessionDate, b: SessionDate, h: seq<Candle>, now: Timestamp, strict: bool)
    requires InHours(h) && Sound(c, Today(now), h) && HoldsAll(c, h, strict) && c.row.Some? && IsDate(a)
    requires b < First(c) && (exists d :: a <= d <= b && IsSession(d) && HasBars(h, d)) ==>
      NoneNeeded(h, b, First(c), strict)
    ensures AllDates(LeftDays(c, a, b))
    ensures Safe(DaysLog(c, LeftDays(c, a, b), true, h, now), h, strict) <==> LeftFits(c, a, b, h, strict)
  {
    hide IsDate; hide Today; hide InHours; hide IsSession; hide HasBars; hide HoldsAll; hide Increasing; hide Greedy;
    hide FirstLen; hide Precedes; hide AllDates; hide FetchLog; hide Safe; hide OneChunkNeeded; hide Sound;
    hide NoneNeeded;
    hide Filter;
    var days := LeftDays(c, a, b);
    SoundRow(c, Today(now), h);
    PickedDates(a, b, IsLeft(c));
    GreedyChunks(days);
    if b < First(c) && !(exists d :: a <= d <= b && IsSession(d) && HasBars(h, d)) {
      SoundBefore(c, Today(now), h, days);
      GreedyClosed(days, Today(now));
      GreedyPartitions(days);
      NoBarsOneChunk(Greedy(days), h, strict);
      BareLeftSafe(c, Greedy(days), h, now, strict);
    } else {
      if b >= First(c) { NothingBetweenNeeded(h, b, First(c), strict); }
      LeftDaysPrecede(c, a, b, h, Today(now), strict);
      LeftExtensionSafeIff(c, days, h, now, strict);
    }
  }

  lemma NothingBetweenNeeded(h: seq<Candle>, b: SessionDate, first: SessionDate, strict: bool)
    requires b >= first
    ensures NoneNeeded(h, b, first, strict)
  {}

  lemma SoundBefore(c: Cache, today: SessionDate, h: seq<Candle>, days: seq<SessionDate>)
    requires Sound(c, today, h) && c.row.Some? && forall d :: d in days ==> IsSession(d) && IsLeft(c)(d)
    ensures forall d :: d in days ==> d < today
  {
    hide IsSession; hide IsDate; hide DayBars; hide PrevSession;
  }

  /** After the left days the remaining ones continue the range, or there are none. */
  lemma RestContinues(c: Cache, c1: Cache, w: set<SessionDate>, a: SessionDate, b: SessionDate, h: seq<Candle>,
                      today: SessionDate, strict: bool)
    requires Sound(c, today, h) && Sealed(c, today) && c.row.Some? && b < today && IsDate(a)
    requires Fetched(c, c1, w, h) && forall d :: d in w ==> d in LeftDays(c, a, b)
    requires FillFits(c, a, b, h, strict)
    ensures RestDays(c, a, b) == [] || Continues(c1, RestDays(c, a, b), h, strict)
  {
    FetchGrows(c, c1, w, h);
    hide IsDate; hide IsSession; hide HasBars; hide DayBars; hide PrevSession; hide Filter; hide Increasing;
    hide AllDates;
    hide Fetched;
    PickedDates(a, b, IsLeft(c));
    PickedDates(a, b, IsRest(c));
    LeftKeepsLast(c, c1, w, a, b, today, h);
    hide Grown;
    var rest := RestDays(c, a, b);
    if First(c) <= Last(c) {
      RestFollows(c, c1, rest, a, b, h, strict);
    } else {
      forall d ensures d !in rest { NoRestBeforeLive(c, today, h, b, d); }
      if rest != [] { SomeIn(rest); }
    }
  }

  lemma SomeIn(days: seq<SessionDate>)
    requires days != []
    ensures exists d :: d in days
  {
    var d := days[0];
    assert d in days;
  }

  lemma LeftKeepsLast(c: Cache, c1: Cache, w: set<SessionDate>, a: SessionDate, b: SessionDate, today: SessionDate,
                      h: seq<Candle>)
    requires Sound(c, today, h) && c.row.Some? && Grown(c, c1, w)
    requires forall d :: d in w ==> IsSession(d) && d < First(c)
    ensures Ranged(c) && Ranged(c1) && First(c1) <= First(c) && Last(c1) == Last(c)
  {
    hide IsDate; hide IsSession; hide DayBars; hide PrevSession;
  }

  lemma NoRestBeforeLive(c: Cache, today: SessionDate, h: seq<Candle>, b: SessionDate, d: SessionDate)
    requires Sound(c, today, h) && Sealed(c, today) && c.row.Some? && First(c) > Last(c) && b < today
    ensures !(d <= b && IsSession(d) && IsRest(c)(d))
  {
    hide IsDate; hide IsSession; hide DayBars; hide PrevSession;
  }

  lemma RestFollows(c: Cache, c1: Cache, rest: seq<SessionDate>, a: SessionDate, b: SessionDate, h: seq<Candle>,
                    strict: bool)
    requires Ranged(c) && Ranged(c1) && First(c1) <= First(c) <= Last(c) == Last(c1)
    requires forall d :: d in rest <==> a <= d <= b && IsSession(d) && IsRest(c)(d)
    requires FillFits(c, a, b, h, strict)
    ensures Continues(c1, rest, h, strict)
  {
    hide IsSession; hide HasBars;
    var last := Last(c);
    forall e | e in rest ensures a > last ==> NoneNeeded(h, last, a, strict) {
      assert a <= e <= b && IsSession(e) && First(c) <= e;
    }
    forall d, e | e in rest && Needed(h, d, strict) && last < d <= e ensures d in rest {}
  }

  /** Writing the days of a closed request is safe, write by write, exactly when the request fits and its
      days before the range need one chunk only. */
  lemma FillSafeIff(c: Cache, a: SessionDate, b: SessionDate, h: seq<Candle>, now: Timestamp, strict: bool)
    requires InHours(h) && Sound(c, Today(now), h) && Sealed(c, Today(now)) && HoldsAll(c, h, strict)
    requires IsDate(a) && b < Today(now) && (strict ==> Dense(h, Today(now)))
    ensures Safe(FillLog(c, a, b, h, now), h, strict) <==> FillFits(c, a, b, h, strict) && LeftFits(c, a, b, h, strict)
  {
    hide IsDate; hide Today; hide InHours; hide IsSession; hide HasBars; hide HoldsAll; hide Increasing; hide AllDates;
    hide Safe; hide Sound; hide Dense; hide Filter; hide FetchAndStore; hide DaysLog; hide Fetched; hide FillWrites;
    hide FillFits; hide LeftFits; hide WrittenFrom; hide Sealed;
    SoundRow(c, Today(now), h);
    PickedDates(a, b, IsLeft(c));
    PickedDates(a, b, IsRest(c));
    var left, rest := LeftDays(c, a, b), RestDays(c, a, b);
    var leftEnd := !(c.row.Some? && c.row.value.first.Some?);
    var c1 := FetchAndStore(c, left, true, h, now);
    SafeConcat(DaysLog(c, left, true, h, now), DaysLog(c1, rest, leftEnd, h, now), h, strict);
    if c.row.None? {
      NoLeft(c, a, b, h, strict);
      NoDaysSafe(c, true, h, now, strict);
      FreshDaysSafe(c, rest, a, b, h, now, strict);
    } else {
      if Safe(FillLog(c, a, b, h, now), h, strict) { SafeFillFits(c, a, b, h, now, strict); }
      if FillFits(c, a, b, h, strict) {
        FitsLeft(c, a, b, h, strict);
        LeftSafeIff(c, a, b, h, now, strict);
        if LeftFits(c, a, b, h, strict) { RestIsSafe(c, a, b, h, now, strict); }
      }
    }
  }

  lemma NoLeft(c: Cache, a: SessionDate, b: SessionDate, h: seq<Candle>, strict: bool)
    requires c.row.None? && IsDate(a)
    ensures LeftDays(c, a, b) == [] && FillFits(c, a, b, h, strict) && LeftFits(c, a, b, h, strict)
  {
    hide IsDate; hide IsSession; hide HasBars;
    FilterNone(SessionList(a, b), IsLeft(c));
  }

  lemma FitsLeft(c: Cache, a: SessionDate, b: SessionDate, h: seq<Candle>, strict: bool)
    requires FillFits(c, a, b, h, strict) && Ranged(c)
    ensures b < First(c) && (exists d :: a <= d <= b && IsSession(d) && HasBars(h, d)) ==>
      NoneNeeded(h, b, First(c), strict)
  {
    hide IsSession; hide HasBars; hide NoneNeeded;
  }

  lemma FreshDaysSafe(c: Cache, rest: seq<SessionDate>, a: SessionDate, b: SessionDate, h: seq<Candle>, now: Timestamp,
                      strict: bool)
    requires InHours(h) && c.row.None? && AllDates(rest) && Increasing(rest) && b < Today(now)
    requires forall d :: d in rest <==> a <= d <= b && IsSession(d) && IsRest(c)(d)
    requires strict ==> Dense(h, Today(now))
    ensures Safe(DaysLog(c, rest, true, h, now), h, strict)
  {
    hide IsDate; hide Today; hide InHours; hide IsSession; hide HasBars; hide Increasing; hide AllDates; hide Safe;
    hide Dense; hide FetchLog; hide Greedy; hide FirstLen;
    GreedyChunks(rest);
    GreedyClosed(rest, Today(now));
    GreedyPartitions(rest);
    FreshSafe(c, Greedy(rest), h, now, a, strict);
  }

  /** If every write is safe, so is the end, and so the request fits. */
  lemma SafeFillFits(c: Cache, a: SessionDate, b: SessionDate, h: seq<Candle>, now: Timestamp, strict: bool)
    requires InHours(h) && Sound(c, Today(now), h) && Sealed(c, Today(now)) && HoldsAll(c, h, strict) && c.row.Some?
    requires IsDate(a) && b < Today(now) && (strict ==> Dense(h, Today(now)))
    requires Safe(FillLog(c, a, b, h, now), h, strict)
    ensures FillFits(c, a, b, h, strict)
  {
    hide IsDate; hide Today; hide InHours; hide IsSession; hide HasBars; hide HoldsAll; hide Increasing; hide AllDates;
    hide Safe; hide Sound; hide Dense; hide Filter; hide FetchAndStore; hide DaysLog; hide Fetched; hide FillWrites;
    hide FillFits; hide Sealed;
    SoundRow(c, Today(now), h);
    PickedDates(a, b, IsLeft(c));
    PickedDates(a, b, IsRest(c));
    var left, rest := LeftDays(c, a, b), RestDays(c, a, b);
    var leftEnd := !(c.row.Some? && c.row.value.first.Some?);
    var c1 := FetchAndStore(c, left, true, h, now);
    SafeConcat(DaysLog(c, left, true, h, now), DaysLog(c1, rest, leftEnd, h, now), h, strict);
    SafeDaysHold(c, left, true, h, now, strict);
    SafeDaysHold(c1, rest, leftEnd, h, now, strict);
    var w := FillClosedWrites(c, a, b, h, now);
    FillIff(c, FillClosed(c, a, b, h, now), w, a, b, h, Today(now), strict);
  }

  lemma RestIsSafe(c: Cache, a: SessionDate, b: SessionDate, h: seq<Candle>, now: Timestamp, strict: bool)
    requires InHours(h) && Sound(c, Today(now), h) && Sealed(c, Today(now)) && HoldsAll(c, h, strict) && c.row.Some?
    requires IsDate(a) && b < Today(now) && FillFits(c, a, b, h, strict)
    requires AllDates(LeftDays(c, a, b)) && Safe(DaysLog(c, LeftDays(c, a, b), true, h, now), h, strict)
    ensures AllDates(RestDays(c, a, b))
    ensures var c1 := FetchAndStore(c, LeftDays(c, a, b), true, h, now);
      Safe(DaysLog(c1, RestDays(c, a, b), false, h, now), h, strict)
  {
    hide IsDate; hide Today; hide InHours; hide IsSession; hide HasBars; hide HoldsAll; hide Increasing; hide AllDates;
    hide Safe; hide Sound; hide Filter; hide FetchAndStore; hide Fetched; hide Greedy; hide FirstLen; hide FetchLog;
    hide FillFits; hide WrittenFrom; hide Sealed; hide Continues;
    PickedDates(a, b, IsLeft(c));
    PickedDates(a, b, IsRest(c));
    var left, rest := LeftDays(c, a, b), RestDays(c, a, b);
    var c1 := FetchAndStore(c, left, true, h, now);
    SoundBefore(c, Today(now), h, left);
    SafeDaysHold(c, left, true, h, now, strict);
    var w := FetchWrites(c, left, true, h, now);
    forall d | d in w ensures d in left { WrittenIs(w, left, true, h, d); }
    RestContinues(c, c1, w, a, b, h, Today(now), strict);
    if rest == [] {
      NoDaysSafe(c1, false, h, now, strict);
    } else {
      GreedyChunks(rest);
      GreedyClosed(rest, Today(now));
      GreedyPartitions(rest);
      RightExtensionSafe(c1, Greedy(rest), h, now, strict);
    }
  }

  // ---------------------------------------------------------------- the other writes of a request

  lemma OneDayLog(c: Cache, d: SessionDate, h: seq<Candle>, now: Timestamp)
    requires IsDate(d)
    ensures AllDates([d])
    ensures DaysLog(c, [d], false, h, now) == ChunkLog(c, [d], ChunkBars(h, now, [d]))
    ensures FetchAndStore(c, [d], false, h, now) == StoreChunk(c, [d], ChunkBars(h, now, [d]))
  {
    hide IsDate; hide StoreChunk; hide ChunkBars; hide Greedy; hide ChunkLog;
    GreedyOfOne(d);
    var bars := ChunkBars(h, now, [d]);
    var c1 := StoreChunk(c, [d], bars);
    assert [[d]][1..] == [];
    assert FetchLog(c1, [], false, h, now) == [];
    assert ChunkLog(c, [d], bars) + [] == ChunkLog(c, [d], bars);
    FetchOneDay(c, d, h, now);
  }

  lemma SafeRow(c: Cache, h: seq<Candle>, strict: bool)
    ensures Safe([Row(c)], h, strict) <==> HoldsAll(c, h, strict)
  {
    hide HoldsAll;
    assert [Row(c)][0].after == c;
  }

  /** Sealing is safe write by write. */
  lemma SealSafe(c: Cache, h: seq<Candle>, now: Timestamp, strict: bool)
    requires InHours(h) && Sound(c, Today(now), h) && RowDates(c) && HoldsAll(c, h, strict)
    ensures Safe(SealLog(c, Today(now), h, now), h, strict)
  {
    hide IsSession; hide IsDate; hide DayBars; hide HasBars; hide Today; hide InHours; hide ChunkBars; hide HoldsAll;
    hide NoSessionBetween; hide PrevSession; hide FetchAndStore; hide DaysLog; hide Safe; hide StoreChunk;
    hide ChunkLog;
    var today := Today(now);
    NothingUnsafe(h, strict);
    if StaleLive(c, today) {
      var x := c.row.value.live.value;
      SoundRow(c, today, h);
      OneDayLog(c, x, h, now);
      var w := FetchWrites(c, [x], false, h, now);
      OnlyOne(w, x, h);
      LiveFetched(c, FetchAndStore(c, [x], false, h, now), x, h, today);
      SealHolds(c, FetchAndStore(c, [x], false, h, now), x, h, strict);
      ChunkLogSafe(c, [x], ChunkBars(h, now, [x]), h, strict);
      SealKeeps(c, today, h, now, strict);
      SafeRow(Seal(c, today, h, now), h, strict);
      SafeConcat(DaysLog(c, [x], false, h, now), [Row(Seal(c, today, h, now))], h, strict);
    }
  }

  lemma LiveFetched(c: Cache, c1: Cache, x: SessionDate, h: seq<Candle>, today: SessionDate)
    requires Sound(c, today, h) && c.row.Some? && c.row.value.live == Some(x) && Fetched(c, c1, {x}, h)
    ensures Ranged(c) && Ranged(c1) && First(c1) == First(c) && Last(c1) == x && c1.store.Keys == c.store.Keys
    ensures x in c.store && NoSessionBetween(Last(c), x)
  {
    FetchGrows(c, c1, {x}, h);
    hide IsSession; hide IsDate; hide DayBars; hide NoSessionBetween; hide PrevSession; hide Fetched;
  }

  /** Discovery is safe write by write: the row comes last. */
  lemma DiscoverSafe(c: Cache, closedTo: SessionDate, h: seq<Candle>, now: Timestamp, strict: bool)
    requires InHours(h) && c.row.None? && c.store == map[] && IsDate(closedTo) && closedTo < Today(now)
    ensures Safe(DiscoverLog(c, closedTo, h, now), h, strict)
  {
    hide IsDate; hide Discovered; hide MinDate; hide SessionList; hide PutDays; hide FromIst; hide Discover;
    hide HasBars;
    hide Today; hide InHours; hide IsSession; hide HoldsAll; hide Sound;
    var bars := Discovered(h, now, closedTo);
    if bars != [] {
      MinDateIsLeast(bars);
      DiscoverKeeps(c, closedTo, h, now, strict);
      var log := DiscoverLog(c, closedTo, h, now);
      forall i | 0 <= i < |log| ensures HoldsAll(log[i].after, h, strict) {
        if i < |log| - 1 { NoRowHolds(log[i].after, h, strict); }
      }
    }
  }

  /** Refreshing today is safe write by write exactly when its end is. */
  lemma RefreshSafeIff(c: Cache, h: seq<Candle>, now: Timestamp, strict: bool)
    requires InHours(h) && Sound(c, Today(now), h) && Sealed(c, Today(now)) && IsSession(Today(now))
    requires HoldsAll(c, h, strict)
    ensures Safe(RefreshLog(c, Today(now), h, now), h, strict) <==>
      HoldsAll(RefreshToday(c, Today(now), h, now), h, strict)
  {
    hide IsSession; hide IsDate; hide DayBars; hide HasBars; hide PrevSession; hide ChunkBars; hide Today; hide InHours;
    hide StoreChunk; hide FromIst; hide Sound; hide HoldsAll; hide LiveFresh; hide DaysLog; hide Safe; hide ChunkLog;
    hide FetchAndStore;
    var today := Today(now);
    NothingUnsafe(h, strict);
    if !(RowOf(c).live == Some(today) && LiveFresh(RowOf(c), now)) {
      var bars := ChunkBars(h, now, [today]);
      var end := RefreshToday(c, today, h, now);
      OneDayLog(c, today, h, now);
      SafeRow(end, h, strict);
      SafeConcat(DaysLog(c, [today], false, h, now), [Row(end)], h, strict);
      RefreshIff(c, h, now, strict);
      hide RefreshToday;
      SoundRange(c, today, h);
      if HoldsAll(end, h, strict) {
        TodayWidened(c, today, bars, h, strict);
        ChunkLogSafe(c, [today], bars, h, strict);
      }
    }
  }

  /** Between the row that includes today and the one that takes it out again nothing is missing. */
  lemma TodayWidened(c: Cache, today: SessionDate, bars: seq<Candle>, h: seq<Candle>, strict: bool)
    requires c.row.Some? ==> Ranged(c) && First(c) <= today && Last(c) < today && NoneNeeded(h, Last(c), today, strict)
    requires HoldsAll(c, h, strict)
    ensures HoldsAll(StoreChunk(c, [today], bars), h, strict)
  {
    hide DayBars; hide HasBars; hide IsSession;
    assert [today][..0] == [];
    assert Widen(RowOf(c), [today]) == WidenDay(RowOf(c), today);
    assert PutDays(c.store, [today], bars) == c.store[today := DayBars(bars, today)];
  }

  // ---------------------------------------------------------------- whole requests

  /** The closed part of a request leaves no gap towards the range and needs one chunk before it. */
  ghost predicate ClosedFits(c: Cache, now: Timestamp, from: Timestamp, to: Timestamp, h: seq<Candle>, strict: bool) {
    from != 0 && FromIst(from) <= ClosedTo(now, to) ==>
      && FillFits(c, FromIst(from), ClosedTo(now, to), h, strict)
      && LeftFits(c, FromIst(from), ClosedTo(now, to), h, strict)
  }

  lemma ClosedSafeIff(c: Cache, now: Timestamp, from: Timestamp, to: Timestamp, h: seq<Candle>, strict: bool)
    requires InHours(h) && Sound(c, Today(now), h) && Sealed(c, Today(now)) && HoldsAll(c, h, strict) && RowDates(c)
    requires strict ==> Dense(h, Today(now))
    ensures Safe(ClosedLog(c, now, from, to, h), h, strict) <==> ClosedFits(c, now, from, to, h, strict)
  {
    hide IsSession; hide IsDate; hide FromIst; hide PrevSession; hide DayBars; hide HasBars; hide ClosedTo;
    hide InHours;
    hide Today; hide Sound; hide Dense; hide HoldsAll; hide FillFits; hide LeftFits; hide FillLog; hide DiscoverLog;
    hide Safe;
    hide Sealed;
    var b := ClosedTo(now, to);
    ClosedToBounds(now, to);
    SoundRow(c, Today(now), h);
    NothingUnsafe(h, strict);
    if from == 0 && c.row.None? {
      DiscoverSafe(c, b, h, now, strict);
    } else if from == 0 {
      FillSafeIff(c, First(c), b, h, now, strict);
      FirstAlwaysFits(c, b, h, Today(now), strict);
      FirstHasNoLeft(c, b, h, strict);
    } else if FromIst(from) <= b {
      FillSafeIff(c, FromIstDate(from), b, h, now, strict);
    }
  }

  lemma FirstHasNoLeft(c: Cache, b: SessionDate, h: seq<Candle>, strict: bool)
    requires Ranged(c) && IsDate(First(c))
    ensures LeftFits(c, First(c), b, h, strict)
  {
    hide IsDate; hide IsSession; hide HasBars;
    PickedDates(First(c), b, IsLeft(c));
    SessionListIsExact(First(c), b);
    FilterNone(SessionList(First(c), b), IsLeft(c));
    GreedyOfNothing();
  }

  /** The condition of a request on the state left by sealing: it fits, and what it adds before the range
      needs one chunk only. */
  ghost predicate WritesFit(c: Cache, now: Timestamp, from: Timestamp, to: Timestamp, h: seq<Candle>, strict: bool) {
    && RequestFits(c, now, from, to, h, strict)
    && (from != 0 && FromIst(from) <= ClosedTo(now, to) ==> LeftFits(c, FromIst(from), ClosedTo(now, to), h, strict))
  }

  /** After every single write of ensure_data_available the range lists no needed day without a key if and
      only if the request fits and needs one chunk before the range. */
  lemma EnsureSafeIff(c: Cache, now: Timestamp, from: Timestamp, to: Timestamp, h: seq<Candle>, strict: bool)
    requires InHours(h) && Sound(c, Today(now), h) && RowDates(c) && HoldsAll(c, h, strict)
    requires strict ==> Dense(h, Today(now))
    ensures Safe(EnsureLog(c, now, from, to, h), h, strict) <==>
      WritesFit(Seal(c, Today(now), h, now), now, from, to, h, strict)
  {
    hide IsSession; hide IsDate; hide FromIst; hide PrevSession; hide DayBars; hide HasBars; hide ClosedTo;
    hide InHours;
    hide Today; hide Sound; hide Dense; hide HoldsAll; hide FillFits; hide LeftFits; hide Safe; hide SealLog;
    hide ClosedLog;
    hide RefreshLog; hide Seal; hide EnsureClosed; hide RefreshToday; hide Sealed;
    var today := Today(now);
    SealSafe(c, h, now, strict);
    SealKeeps(c, today, h, now, strict);
    var c1 := Seal(c, today, h, now);
    SoundRow(c1, today, h);
    ClosedSafeIff(c1, now, from, to, h, strict);
    ClosedIff(c1, now, from, to, h, strict);
    EnsureIff(c, today, now, from, to, h, strict);
    var c2 := EnsureClosed(c1, now, from, to, h);
    var a, b := SealLog(c, today, h, now), ClosedLog(c1, now, from, to, h);
    SafeConcat(a, b, h, strict);
    if WantsToday(now, from, to) {
      SafeConcat(a + b, RefreshLog(c2, today, h, now), h, strict);
      if HoldsAll(c2, h, strict) { RefreshSafeIff(c2, h, now, strict); }
    } else {
      assert a + b + [] == a + b;
    }
  }

  // ---------------------------------------------------------------- runs of requests

  /** Every write of a run of requests, from an empty database. */
  ghost function RunLog(reqs: seq<Request>, h: seq<Candle>): seq<Write> {
    if reqs == [] then []
    else
      var n := |reqs| - 1;
      RunLog(reqs[..n], h) + EnsureLog(Run(reqs[..n], h), reqs[n].now, reqs[n].from, reqs[n].to, h)
  }

  /** Every request and what it writes fit the state it meets. */
  ghost predicate AllWritesFit(reqs: seq<Request>, h: seq<Candle>, strict: bool) {
    forall i :: 0 <= i < |reqs| ==>
      WritesFit(Seal(Run(reqs[..i], h), Today(reqs[i].now), h, reqs[i].now), reqs[i].now, reqs[i].from, reqs[i].to, h,
        strict)
  }

  lemma FitPrefix(reqs: seq<Request>, h: seq<Candle>, strict: bool, n: nat)
    requires n == |reqs| - 1
    ensures AllWritesFit(reqs, h, strict) <==>
      && AllWritesFit(reqs[..n], h, strict)
      && WritesFit(Seal(Run(reqs[..n], h), Today(reqs[n].now), h, reqs[n].now), reqs[n].now, reqs[n].from, reqs[n].to,
           h, strict)
    ensures AllWritesFit(reqs, h, strict) ==> AllFit(reqs, h, strict)
  {
    hide WritesFit; hide Run; hide Today; hide Seal;
    forall i | 0 <= i < n ensures reqs[..n][..i] == reqs[..i] && reqs[..n][i] == reqs[i] {}
    FitIsFit(reqs, h, strict);
  }

  lemma FitIsFit(reqs: seq<Request>, h: seq<Candle>, strict: bool)
    ensures AllWritesFit(reqs, h, strict) ==> AllFit(reqs, h, strict)
  {
    hide RequestFits; hide Run; hide Today; hide Seal; hide LeftFits; hide FromIst; hide ClosedTo;
  }

  /** Over every run with a non-decreasing clock: after every single write of every request the range lists
      no needed day without a key, if and only if all requests and their writes fit. */
  lemma {:induction false} RunSafeIff(reqs: seq<Request>, h: seq<Candle>, strict: bool)
    requires InHours(h) && ClockNeverTurnsBack(reqs)
    requires strict ==> Dense(h, LastToday(reqs))
    ensures Safe(RunLog(reqs, h), h, strict) <==> AllWritesFit(reqs, h, strict)
  {
    hide IsSession; hide IsDate; hide PrevSession; hide DayBars; hide FromIst; hide Ensure; hide InHours; hide RowDates;
    hide Dense; hide HasBars; hide Sound; hide WritesFit; hide HoldsAll; hide Seal; hide Safe; hide EnsureLog;
    hide AllWritesFit; hide AllFit; hide Today;
    if reqs == [] {
      NothingUnsafe(h, strict);
      NoneFits(h, strict);
    } else {
      var n := |reqs| - 1;
      var c := Run(reqs[..n], h);
      TodayGrows(reqs, n);
      if strict { DenseEarlier(h, LastToday(reqs[..n]), LastToday(reqs)); }
      RunSafeIff(reqs[..n], h, strict);
      FitPrefix(reqs, h, strict, n);
      SafeConcat(RunLog(reqs[..n], h), EnsureLog(c, reqs[n].now, reqs[n].from, reqs[n].to, h), h, strict);
      if AllWritesFit(reqs[..n], h, strict) {
        FitIsFit(reqs[..n], h, strict);
        RunHoldsAll(reqs[..n], h, strict);
        RunSound(reqs[..n], h);
        SoundLater(c, LastToday(reqs[..n]), Today(reqs[n].now), h);
        EnsureSafeIff(c, reqs[n].now, reqs[n].from, reqs[n].to, h, strict);
      }
    }
  }

  lemma NoneFits(h: seq<Candle>, strict: bool)
    ensures AllWritesFit([], h, strict)
  {}
}
