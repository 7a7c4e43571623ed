/** The state of the cache after every single write, and the requests that break the range. */
module CacheWrites {
  import opened Domain
  import opened Selection
  import opened SessionCalendar
  import opened Chunker
  import opened MarketCache
  import opened CacheCoverage
  import opened CacheLog

  /** After no write of the log does the range list a needed day without a key. */
  ghost predicate Safe(log: seq<Write>, h: seq<Candle>, strict: bool) {
    forall i :: 0 <= i < |log| ==> HoldsAll(log[i].after, h, strict)
  }

  lemma {:induction false} PutDaysGrows(store: map<SessionDate, seq<Candle>>, days: seq<SessionDate>, bars: seq<Candle>)
    ensures store.Keys <= PutDays(store, days, bars).Keys
  {
    hide DayBars;
    if days != [] { PutDaysGrows(store, days[..|days| - 1], bars); }
  }

  /** Blobs are written before the row that lists them, so no put can break the promise. */
  lemma ChunkLogSafe(c: Cache, w: seq<SessionDate>, bars: seq<Candle>, h: seq<Candle>, strict: bool)
    requires HoldsAll(c, h, strict) && HoldsAll(StoreChunk(c, w, bars), h, strict)
    ensures Safe(ChunkLog(c, w, bars), h, strict)
  {
    hide HasBars; hide PutDays; hide StoreChunk; hide IsSession;
    var t := ChunkLog(c, w, bars);
    forall i | 0 <= i < |t| ensures HoldsAll(t[i].after, h, strict) {
      if i < |w| { PutDaysGrows(c.store, w[..i + 1], bars); }
    }
  }

  // ---------------------------------------------------------------- right extension

  /** days continue the range: they come after it and skip no needed day. */
  ghost predicate Continues(c: Cache, days: seq<SessionDate>, h: seq<Candle>, strict: bool) {
    && Ranged(c) && First(c) <= Last(c)
    && (forall d :: d in days ==> Last(c) < d)
    && (forall d, e :: e in days && Needed(h, d, strict) && Last(c) < d <= e ==> d in days)
  }

  /** While the range is extended to the right, every intermediate state is free of missing keys. */
  lemma {:induction false} RightExtensionSafe(c: Cache, chunks: seq<seq<SessionDate>>, h: seq<Candle>, now: Timestamp,
                                              strict: bool)
    requires InHours(h) && ClosedChunks(chunks, Today(now)) && Increasing(Concat(chunks))
    requires HoldsAll(c, h, strict) && Continues(c, Concat(chunks), h, strict)
    ensures Safe(FetchLog(c, chunks, false, h, now), h, strict)
    decreases |chunks|
  {
    hide IsDate; hide FromIst; hide ChunkBars; hide DayBars; hide Today; hide InHours; hide HasBars; hide IsSession;
    hide HoldsAll; hide Continues; hide StoreChunk; hide ChunkLog; hide Increasing;
    if chunks != [] {
      var days, rest := chunks[0], Concat(chunks[1..]);
      var bars := ChunkBars(h, now, days);
      var c1 := StoreChunk(c, days, bars);
      ChunkWrites(h, now, days, false, c);
      RightStep(c, c1, days, rest, h, strict);
      ChunkLogSafe(c, days, bars, h, strict);
      RightExtensionSafe(c1, chunks[1..], h, now, strict);
    }
  }

  lemma RightStep(c: Cache, c1: Cache, days: seq<SessionDate>, rest: seq<SessionDate>, h: seq<Candle>, strict: bool)
    requires Increasing(days + rest) && days != []
    requires HoldsAll(c, h, strict) && Continues(c, days + rest, h, strict)
    requires Fetched(c, c1, Days(days), h)
    ensures HoldsAll(c1, h, strict) && Continues(c1, rest, h, strict) && Increasing(rest)
  {
    FetchGrows(c, c1, Days(days), h);
    hide DayBars; hide HasBars; hide IsSession; hide Fetched; hide Increasing;
    HeadThenTail(days, rest);
    assert days[|days| - 1] in Days(days);
  }

  lemma HeadThenTail(days: seq<SessionDate>, rest: seq<SessionDate>)
    requires Increasing(days + rest) && days != []
    ensures Increasing(rest)
    ensures forall d :: d in days ==> d <= days[|days| - 1]
    ensures forall d :: d in rest ==> d > days[|days| - 1]
    ensures forall d :: d in days + rest <==> d in days || d in rest
  {
    var s, n := days + rest, |days|;
    forall d | d in days ensures d <= days[n - 1] {
      var i :| 0 <= i < n && days[i] == d;
      assert s[i] == d && s[n - 1] == days[n - 1];
    }
    forall d | d in rest ensures d > days[n - 1] {
      var i :| 0 <= i < |rest| && rest[i] == d;
      assert s[n + i] == d && s[n - 1] == days[n - 1];
    }
    forall i, j | 0 <= i < j < |rest| ensures rest[i] < rest[j] {
      assert s[n + i] == rest[i] && s[n + j] == rest[j];
    }
  }

  // ---------------------------------------------------------------- left extension

  /** days precede the range, are not stored, and skip no needed day up to the range. */
  ghost predicate Precedes(c: Cache, days: seq<SessionDate>, h: seq<Candle>, strict: bool) {
    && Ranged(c)
    && (forall d :: d in days ==> IsSession(d) && d < First(c) && d <= Last(c) && d !in c.store)
    && (forall d, e :: e in days && Needed(h, d, strict) && e <= d < First(c) ==> d in days)
  }

  ghost predicate ChunkHasBars(h: seq<Candle>, chunk: seq<SessionDate>) {
    exists d :: d in chunk && HasBars(h, d)
  }

  ghost predicate NoneNeededIn(h: seq<Candle>, days: seq<SessionDate>, strict: bool) {
    forall d :: d in days ==> !Needed(h, d, strict)
  }

  /** No needed day comes in a later chunk than one with bars. */
  ghost predicate OneChunkNeeded(chunks: seq<seq<SessionDate>>, h: seq<Candle>, strict: bool) {
    forall i, j :: 0 <= i < j < |chunks| && ChunkHasBars(h, chunks[i]) ==> NoneNeededIn(h, chunks[j], strict)
  }

  /** While the range is extended to the left, oldest chunk first, every intermediate state is free of
      missing keys if and only if no needed day comes in a later chunk than the first one with bars. */
  lemma {:induction false} LeftLogIff(c: Cache, chunks: seq<seq<SessionDate>>, h: seq<Candle>, now: Timestamp,
                                        strict: bool)
    requires InHours(h) && ClosedChunks(chunks, Today(now)) && Increasing(Concat(chunks))
    requires HoldsAll(c, h, strict) && Precedes(c, Concat(chunks), h, strict)
    ensures Safe(FetchLog(c, chunks, true, h, now), h, strict) <==> OneChunkNeeded(chunks, h, strict)
    decreases |chunks|
  {
    hide IsDate; hide FromIst; hide ChunkBars; hide DayBars; hide Today; hide InHours; hide HasBars; hide IsSession;
    hide Safe;
    hide HoldsAll; hide Precedes; hide StoreChunk; hide ChunkLog; hide Increasing; hide DropBare; hide AllDates;
    hide OneChunkNeeded; hide Fetched; hide WrittenFrom;
    if chunks == [] {
      NothingUnsafe(h, strict);
    } else {
      var days, rest := chunks[0], Concat(chunks[1..]);
      var bars := ChunkBars(h, now, days);
      var w := DropBare(days, bars);
      var c1 := StoreChunk(c, w, bars);
      var later := FetchLog(c1, chunks[1..], true, h, now);
      ChunkWrites(h, now, days, true, c);
      OneChunkNeededNext(chunks, h, strict);
      SafeConcat(ChunkLog(c, w, bars), later, h, strict);
      if w == [] {
        BareChunk(c, c1, days, rest, bars, h, strict);
        LeftLogIff(c1, chunks[1..], h, now, strict);
      } else {
        FirstIncreasing(days, rest);
        DropBareTail(days, bars);
        LeftStep(c, c1, w, days, rest, h, strict);
        LastOfChunk(c, w, bars, h, strict);
        if NoneNeededIn(h, rest, strict) {
          ChunkLogSafe(c, w, bars, h, strict);
          CoveredLogSafe(c1, chunks[1..], h, now, strict);
        }
        NoneNeededRest(chunks[1..], h, strict);
      }
    }
  }

  lemma FirstIncreasing(days: seq<SessionDate>, rest: seq<SessionDate>)
    requires Increasing(days + rest)
    ensures Increasing(days)
  {
    forall i, j | 0 <= i < j < |days| ensures days[i] < days[j] {
      assert (days + rest)[i] == days[i] && (days + rest)[j] == days[j];
    }
  }

  lemma NothingUnsafe(h: seq<Candle>, strict: bool)
    ensures Safe([], h, strict) && OneChunkNeeded([], h, strict)
  {}

  lemma SafeConcat(a: seq<Write>, b: seq<Write>, h: seq<Candle>, strict: bool)
    ensures Safe(a + b, h, strict) <==> Safe(a, h, strict) && Safe(b, h, strict)
  {
    hide HoldsAll;
    var t := a + b;
    if Safe(t, h, strict) {
      forall i | 0 <= i < |a| ensures HoldsAll(a[i].after, h, strict) { assert t[i] == a[i]; }
      forall i | 0 <= i < |b| ensures HoldsAll(b[i].after, h, strict) { assert t[|a| + i] == b[i]; }
    }
  }

  lemma OneChunkNeededNext(chunks: seq<seq<SessionDate>>, h: seq<Candle>, strict: bool)
    requires chunks != []
    ensures OneChunkNeeded(chunks, h, strict) <==>
      && (ChunkHasBars(h, chunks[0]) ==> NoneNeededIn(h, Concat(chunks[1..]), strict))
      && OneChunkNeeded(chunks[1..], h, strict)
  {
    hide ChunkHasBars; hide NoneNeededIn;
    var rest := chunks[1..];
    NoneNeededEach(rest, h, strict);
    if OneChunkNeeded(chunks, h, strict) {
      forall i, j | 0 <= i < j < |rest| && ChunkHasBars(h, rest[i]) ensures NoneNeededIn(h, rest[j], strict) {
        assert chunks[i + 1] == rest[i] && chunks[j + 1] == rest[j];
      }
      forall j | 0 <= j < |rest| && ChunkHasBars(h, chunks[0]) ensures NoneNeededIn(h, rest[j], strict) {
        assert chunks[j + 1] == rest[j];
      }
    }
    if (ChunkHasBars(h, chunks[0]) ==> NoneNeededIn(h, Concat(rest), strict)) && OneChunkNeeded(rest, h, strict) {
      forall i, j | 0 <= i < j < |chunks| && ChunkHasBars(h, chunks[i]) ensures NoneNeededIn(h, chunks[j], strict) {
        assert chunks[j] == rest[j - 1];
        if i > 0 { assert chunks[i] == rest[i - 1]; }
      }
    }
  }

  lemma {:induction false} NoneNeededEach(chunks: seq<seq<SessionDate>>, h: seq<Candle>, strict: bool)
    ensures NoneNeededIn(h, Concat(chunks), strict) <==>
      forall j :: 0 <= j < |chunks| ==> NoneNeededIn(h, chunks[j], strict)
  {
    hide Needed;
    if chunks != [] {
      var rest := chunks[1..];
      NoneNeededEach(rest, h, strict);
      assert Concat(chunks) == chunks[0] + Concat(rest);
      NoneNeededBoth(h, chunks[0], Concat(rest), strict);
      hide NoneNeededIn;
      if forall j :: 0 <= j < |chunks| ==> NoneNeededIn(h, chunks[j], strict) {
        forall j | 0 <= j < |rest| ensures NoneNeededIn(h, rest[j], strict) { assert rest[j] == chunks[j + 1]; }
      }
      if NoneNeededIn(h, Concat(chunks), strict) {
        forall j | 0 <= j < |chunks| ensures NoneNeededIn(h, chunks[j], strict) {
          if j > 0 { assert chunks[j] == rest[j - 1]; }
        }
      }
    }
  }

  lemma NoneNeededBoth(h: seq<Candle>, a: seq<SessionDate>, b: seq<SessionDate>, strict: bool)
    ensures NoneNeededIn(h, a + b, strict) <==> NoneNeededIn(h, a, strict) && NoneNeededIn(h, b, strict)
  {
    hide Needed;
    if NoneNeededIn(h, a + b, strict) {
      forall d | d in a ensures !Needed(h, d, strict) { assert d in a + b; }
      forall d | d in b ensures !Needed(h, d, strict) { assert d in a + b; }
    }
  }

  /** Without needed days no chunk condition can fail. */
  lemma NoneNeededRest(chunks: seq<seq<SessionDate>>, h: seq<Candle>, strict: bool)
    ensures NoneNeededIn(h, Concat(chunks), strict) ==> OneChunkNeeded(chunks, h, strict)
  {
    hide ChunkHasBars; hide NoneNeededIn;
    NoneNeededEach(chunks, h, strict);
  }

  /** A chunk without bars writes nothing and leaves the range where it is. */
  lemma BareChunk(c: Cache, c1: Cache, days: seq<SessionDate>, rest: seq<SessionDate>, bars: seq<Candle>,
                  h: seq<Candle>, strict: bool)
    requires c1 == StoreChunk(c, [], bars) && WrittenFrom(Days([]), days, true, h)
    requires days != [] && Increasing(days + rest) && Precedes(c, days + rest, h, strict) && HoldsAll(c, h, strict)
    ensures Precedes(c1, rest, h, strict) && HoldsAll(c1, h, strict) && Increasing(rest) && !ChunkHasBars(h, days)
    ensures ChunkLog(c, [], bars) == [] && Safe(ChunkLog(c, [], bars), h, strict)
  {
    hide HasBars; hide IsSession; hide DayBars; hide Increasing;
    HeadThenTail(days, rest);
    assert PutDays(c.store, [], bars) == c.store;
  }

  /** Only leading days are dropped. */
  lemma {:induction false} DropBareTail(days: seq<SessionDate>, bars: seq<Candle>)
    requires Increasing(days)
    ensures forall d, e :: d in days && e in DropBare(days, bars) && e <= d ==> d in DropBare(days, bars)
  {
    hide DayBars;
    if days != [] && DayBars(bars, days[0]) == [] {
      HeadThenTail([days[0]], days[1..]) by { assert [days[0]] + days[1..] == days; }
      DropBareTail(days[1..], bars);
      var w := DropBare(days[1..], bars);
      forall d, e | d in days && e in w && e <= d ensures d in w {
        DropBareWithin(days[1..], bars, e);
        assert d != days[0];
      }
    }
  }

  lemma {:induction false} DropBareWithin(days: seq<SessionDate>, bars: seq<Candle>, e: SessionDate)
    requires e in DropBare(days, bars)
    ensures e in days
  {
    hide DayBars;
    if days != [] && DayBars(bars, days[0]) == [] { DropBareWithin(days[1..], bars, e); }
  }

  /** The first chunk with bars moves the range over all later ones. */
  lemma LeftStep(c: Cache, c1: Cache, w: seq<SessionDate>, days: seq<SessionDate>, rest: seq<SessionDate>,
                 h: seq<Candle>, strict: bool)
    requires Fetched(c, c1, Days(w), h) && WrittenFrom(Days(w), days, true, h) && w != []
    requires forall d, e :: d in days && e in w && e <= d ==> d in w
    requires days != [] && Increasing(days + rest) && Precedes(c, days + rest, h, strict) && HoldsAll(c, h, strict)
    ensures ChunkHasBars(h, days) && Increasing(rest)
    ensures Ranged(c1) && forall d :: d in rest ==> First(c1) <= d <= Last(c1)
    ensures HoldsAll(c1, h, strict) <==> NoneNeededIn(h, rest, strict)
  {
    PrecedesRanged(c, days + rest, h, strict);
    FetchGrows(c, c1, Days(w), h);
    hide DayBars; hide HasBars; hide IsSession; hide Fetched; hide Increasing; hide HoldsAll; hide NoneNeededIn;
    hide Precedes; hide Grown; hide WrittenFrom; hide Days; hide ChunkHasBars; hide Ranged;
    WrittenAre(w, days, h);
    BeforeRest(days, rest);
    LeftStepRange(c, c1, w, days, rest, h, strict);
    if HoldsAll(c1, h, strict) { NeededRestIsMissing(c, c1, w, days, rest, h, strict); }
    if NoneNeededIn(h, rest, strict) { NoneMissing(c, c1, w, days, rest, h, strict); }
  }

  lemma BeforeRest(days: seq<SessionDate>, rest: seq<SessionDate>)
    requires Increasing(days + rest) && days != []
    ensures Increasing(rest) && forall d, e :: d in days && e in rest ==> d < e
  {
    hide Increasing;
    HeadThenTail(days, rest);
  }

  lemma PrecedesRanged(c: Cache, days: seq<SessionDate>, h: seq<Candle>, strict: bool)
    requires Precedes(c, days, h, strict)
    ensures Ranged(c)
  {
    hide IsSession; hide Needed;
  }

  lemma WrittenAre(w: seq<SessionDate>, days: seq<SessionDate>, h: seq<Candle>)
    requires WrittenFrom(Days(w), days, true, h) && w != []
    ensures forall d :: d in w ==> d in days
    ensures ChunkHasBars(h, days)
  {
    hide HasBars;
    forall d | d in w ensures d in days { assert d in Days(w); }
    var d := w[0];
    assert d in w && d in Days(w);
    Earlier(Days(w), Days(w), days, true, h, d);
    var b :| b in Days(w) && b <= d && HasBars(h, b);
    assert b in days;
  }

  lemma LeftStepRange(c: Cache, c1: Cache, w: seq<SessionDate>, days: seq<SessionDate>, rest: seq<SessionDate>,
                      h: seq<Candle>, strict: bool)
    requires Grown(c, c1, Days(w)) && w != [] && (forall d :: d in w ==> d in days)
    requires Precedes(c, days + rest, h, strict) && forall d, e :: d in days && e in rest ==> d < e
    ensures Ranged(c1) && First(c1) in w && Last(c1) == Last(c)
    ensures forall d :: d in rest ==> First(c1) <= d <= Last(c1)
  {
    hide IsSession; hide Needed;
    var d, e := w[0], First(c1);
    assert d in w && d in Days(w) && d in days + rest;
    assert e <= d < First(c);
    assert e in Days(w) && e in w;
    assert forall x :: x in Days(w) ==> x in days + rest;
    assert Last(c1) == Last(c);
    forall x | x in rest ensures e <= x <= Last(c) { assert x in days + rest; }
  }

  lemma NeededRestIsMissing(c: Cache, c1: Cache, w: seq<SessionDate>, days: seq<SessionDate>, rest: seq<SessionDate>,
                            h: seq<Candle>, strict: bool)
    requires Grown(c, c1, Days(w)) && Ranged(c) && Ranged(c1) && First(c1) in w && Last(c1) == Last(c)
    requires Precedes(c, days + rest, h, strict) && HoldsAll(c1, h, strict)
    requires (forall d :: d in w ==> d in days) && forall d, e :: d in days && e in rest ==> d < e
    ensures NoneNeededIn(h, rest, strict)
  {
    hide HasBars; hide IsSession;
    forall d | d in rest ensures !Needed(h, d, strict) {
      assert d in days + rest;
      if d in w { assert false; }
      assert d !in c1.store.Keys;
    }
  }

  lemma NoneMissing(c: Cache, c1: Cache, w: seq<SessionDate>, days: seq<SessionDate>, rest: seq<SessionDate>,
                    h: seq<Candle>, strict: bool)
    requires Grown(c, c1, Days(w)) && Ranged(c) && Ranged(c1) && First(c1) in w && Last(c1) == Last(c)
    requires Precedes(c, days + rest, h, strict) && HoldsAll(c, h, strict) && NoneNeededIn(h, rest, strict)
    requires (forall d :: d in w ==> d in days) && forall d, e :: d in days && e in w && e <= d ==> d in w
    ensures HoldsAll(c1, h, strict)
  {
    hide IsSession; hide HasBars;
    assert First(c1) in days + rest;
    forall d | Needed(h, d, strict) && First(c1) <= d <= Last(c1) ensures d in c1.store {
      if d < First(c) {
        assert d in days + rest;
        if d in rest { assert false; }
        assert d in w && d in Days(w);
      } else {
        assert d in c.store.Keys;
      }
      assert d in c1.store.Keys;
    }
  }

  lemma LastOfChunk(c: Cache, w: seq<SessionDate>, bars: seq<Candle>, h: seq<Candle>, strict: bool)
    requires w != []
    ensures Safe(ChunkLog(c, w, bars), h, strict) ==> HoldsAll(StoreChunk(c, w, bars), h, strict)
  {
    hide HoldsAll; hide StoreChunk; hide PutDays;
    var t := ChunkLog(c, w, bars);
    assert t[|w|].after == StoreChunk(c, w, bars);
  }

  /** Chunks inside the range only add keys. */
  lemma {:induction false} CoveredLogSafe(c: Cache, chunks: seq<seq<SessionDate>>, h: seq<Candle>, now: Timestamp,
                                            strict: bool)
    requires InHours(h) && ClosedChunks(chunks, Today(now)) && HoldsAll(c, h, strict)
    requires Ranged(c) && forall d :: d in Concat(chunks) ==> First(c) <= d <= Last(c)
    ensures Safe(FetchLog(c, chunks, true, h, now), h, strict)
    decreases |chunks|
  {
    hide IsDate; hide FromIst; hide ChunkBars; hide DayBars; hide Today; hide InHours; hide HasBars; hide IsSession;
    hide Safe;
    hide HoldsAll; hide StoreChunk; hide ChunkLog; hide Increasing; hide DropBare; hide AllDates; hide Fetched;
    if chunks == [] {
      NothingUnsafe(h, strict);
    } else {
      var days, rest := chunks[0], Concat(chunks[1..]);
      var bars := ChunkBars(h, now, days);
      var w := DropBare(days, bars);
      var c1 := StoreChunk(c, w, bars);
      ChunkWrites(h, now, days, true, c);
      forall d | d in days ensures d in Concat(chunks) {}
      forall d | d in rest ensures d in Concat(chunks) {}
      CoveredStep(c, c1, w, days, h, strict);
      ChunkLogSafe(c, w, bars, h, strict);
      CoveredLogSafe(c1, chunks[1..], h, now, strict);
      SafeConcat(ChunkLog(c, w, bars), FetchLog(c1, chunks[1..], true, h, now), h, strict);
    }
  }

  lemma CoveredStep(c: Cache, c1: Cache, w: seq<SessionDate>, days: seq<SessionDate>, h: seq<Candle>, strict: bool)
    requires Fetched(c, c1, Days(w), h) && WrittenFrom(Days(w), days, true, h) && HoldsAll(c, h, strict)
    requires Ranged(c) && forall d :: d in days ==> First(c) <= d <= Last(c)
    ensures Ranged(c1) && First(c1) == First(c) && Last(c1) == Last(c) && HoldsAll(c1, h, strict)
  {
    FetchGrows(c, c1, Days(w), h);
    hide DayBars; hide HasBars; hide IsSession; hide Fetched;
  }

  /** fetch_and_store to the left of a truthful range without missing keys: every intermediate state is
      free of missing keys if and only if no needed day comes in a later chunk than the first one with bars. */
  lemma LeftExtensionSafeIff(c: Cache, days: seq<SessionDate>, h: seq<Candle>, now: Timestamp, strict: bool)
    requires InHours(h) && HoldsAll(c, h, strict) && AllDates(days) && Increasing(days)
    requires Precedes(c, days, h, strict) && forall d :: d in days ==> d < Today(now)
    ensures AllChunks(Greedy(days))
    ensures Safe(FetchLog(c, Greedy(days), true, h, now), h, strict) <==> OneChunkNeeded(Greedy(days), h, strict)
  {
    hide IsDate; hide Today; hide InHours; hide IsSession; hide HasBars; hide HoldsAll; hide Increasing; hide Greedy;
    hide FirstLen; hide Precedes; hide AllDates; hide FetchLog; hide Safe; hide OneChunkNeeded;
    GreedyChunks(days);
    GreedyClosed(days, Today(now));
    GreedyPartitions(days);
    LeftLogIff(c, Greedy(days), h, now, strict);
  }

  /** What a request adds before the range is such an extension when no needed day lies between its end
      and the range. */
  lemma LeftDaysPrecede(c: Cache, lo: SessionDate, hi: SessionDate, h: seq<Candle>, today: SessionDate, strict: bool)
    requires Sound(c, today, h) && c.row.Some? && IsDate(lo) && NoneNeeded(h, hi, First(c), strict)
    ensures var days := LeftDays(c, lo, hi);
      AllDates(days) && Increasing(days) && Precedes(c, days, h, strict) && forall d :: d in days ==> d < today
  {
    hide IsSession; hide IsDate; hide HasBars; hide DayBars; hide PrevSession; hide AllDates; hide Increasing;
    hide Filter;
    PickedDates(lo, hi, IsLeft(c));
  }

  /** When the vendor has bars from the first requested day on, one chunk must suffice. */
  lemma LeftExtensionDense(c: Cache, days: seq<SessionDate>, h: seq<Candle>, now: Timestamp, strict: bool)
    requires InHours(h) && HoldsAll(c, h, strict) && AllDates(days) && Increasing(days) && Dense(h, Today(now))
    requires Precedes(c, days, h, strict) && forall d :: d in days ==> d < Today(now)
    requires days != [] && HasBars(h, days[0])
    ensures AllChunks(Greedy(days))
    ensures Safe(FetchLog(c, Greedy(days), true, h, now), h, strict) <==> |Greedy(days)| == 1
  {
    hide IsDate; hide Today; hide InHours; hide IsSession; hide HasBars; hide HoldsAll; hide Greedy; hide AllDates;
    hide FirstLen; hide FetchLog; hide Safe; hide Dense;
    LeftExtensionSafeIff(c, days, h, now, strict);
    GreedyPartitions(days);
    var g := Greedy(days);
    if |g| > 1 {
      FirstOfFirst(g);
      assert g[1] != [] && g[0] != [];
      var d := g[1][0];
      InConcat(g, 1, d);
      assert d in days && days[0] in days;
      DenseFrom(h, Today(now), days[0], d);
      assert ChunkHasBars(h, g[0]) && d in g[1] && Needed(h, d, strict);
      assert !NoneNeededIn(h, g[1], strict);
    }
  }

  lemma FirstOfFirst(g: seq<seq<SessionDate>>)
    requires AllChunks(g) && g != []
    ensures Concat(g) != [] && Concat(g)[0] == g[0][0]
  {
    hide AllDates;
  }

  lemma {:induction false} InConcat(g: seq<seq<SessionDate>>, j: nat, d: SessionDate)
    requires j < |g| && d in g[j]
    ensures d in Concat(g)
  {
    if j > 0 { InConcat(g[1..], j - 1, d); }
  }
}
