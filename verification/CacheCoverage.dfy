/** Coverage invariants of the market-data cache: what the coverage row promises about the store,
    which requests keep the promise, and what happens at every single write. */
module CacheCoverage {
  import opened Domain
  import opened Selection
  import opened SessionCalendar
  import opened Chunker
  import opened MarketCache

  // ---------------------------------------------------------------- the vendor's history

  /** Bars fall on session days and not in the last minute before IST midnight. */
  ghost predicate InHours(h: seq<Candle>) {
    forall c :: c in h ==> IsSession(FromIst(c.ts)) && c.ts <= IstHm(FromIstDate(c.ts), 23, 59)
  }

  ghost predicate HasBars(h: seq<Candle>, d: SessionDate) { DayBars(h, d) != [] }

  /** Once the history starts, every later session before today has bars. */
  ghost predicate Dense(h: seq<Candle>, today: SessionDate) {
    forall d, e :: IsSession(d) && IsSession(e) && d < e < today && HasBars(h, d) ==> HasBars(h, e)
  }

  lemma ClockGrows(a: SessionDate, b: SessionDate)
    requires IsDate(a) && IsDate(b) && a <= b
    ensures IstHm(a, 0, 0) <= IstHm(b, 0, 0) && IstHm(a, 23, 59) <= IstHm(b, 23, 59)
    ensures IstHm(b, 23, 59) < IstHm(b, 24, 0)
  {
    hide DayNumber; hide IsDate;
    OrderIsDayOrder(a, b);
  }

  /** A chunk request returns every bar of each closed day it spans. */
  lemma ChunkBarsComplete(h: seq<Candle>, now: Timestamp, chunk: seq<SessionDate>, d: SessionDate)
    requires InHours(h) && chunk != [] && AllDates(chunk) && IsDate(d)
    requires chunk[0] <= d <= chunk[|chunk| - 1] && d < Today(now)
    ensures DayBars(ChunkBars(h, now, chunk), d) == DayBars(h, d)
  {
    hide IsDate; hide FromIst; hide IstHm; hide IsSession;
    var a, b := chunk[0], chunk[|chunk| - 1];
    var p := ServedAt(now, IstHm(a, 0, 0), IstHm(b, 23, 59));
    FilterTwice(h, p, OnDate(d));
    IstOrder(now, d);
    ClockGrows(d, d);
    forall c | c in h ensures Both(p, OnDate(d))(c) == OnDate(d)(c) {
      IstOrder(c.ts, a);
      if FromIst(c.ts) == d { ClockGrows(d, b); }
    }
    FilterAgree(h, Both(p, OnDate(d)), OnDate(d));
  }

  // ---------------------------------------------------------------- what a fetch changes

  /** Row r is r0 stretched just enough to contain days. */
  ghost predicate Widened(r0: Coverage, r: Coverage, days: set<SessionDate>) {
    && r.live == r0.live && r.fetchedAt == r0.fetchedAt
    && r.first.Some? && r.last.Some?
    && (r0.first.Some? ==> r.first.value <= r0.first.value)
    && (r0.last.Some? ==> r0.last.value <= r.last.value)
    && (forall d :: d in days ==> r.first.value <= d <= r.last.value)
    && (r.first == r0.first || r.first.value in days)
    && (r.last == r0.last || r.last.value in days)
  }

  /** Store s is s0 plus the vendor's full days. */
  ghost predicate Stored(s0: map<SessionDate, seq<Candle>>, s: map<SessionDate, seq<Candle>>, days: set<SessionDate>,
                         h: seq<Candle>)
  {
    && s.Keys == s0.Keys + days
    && (forall d :: d in days ==> s[d] == DayBars(h, d))
    && (forall d :: d in s0 && d !in days ==> s[d] == s0[d])
  }

  ghost predicate Fetched(c: Cache, c': Cache, days: set<SessionDate>, h: seq<Candle>) {
    && Stored(c.store, c'.store, days, h)
    && (days == {} ==> c'.row == c.row)
    && (days != {} ==> c'.row.Some? && Widened(RowOf(c), c'.row.value, days) && c'.row.value.sessions == |c'.store|)
  }

  lemma StoredNothing(s0: map<SessionDate, seq<Candle>>, s: map<SessionDate, seq<Candle>>, h: seq<Candle>)
    requires Stored(s0, s, {}, h)
    ensures s == s0
  {
    assert s.Keys == s0.Keys;
    forall d | d in s ensures s[d] == s0[d] { assert d in s0.Keys; }
  }

  lemma StoredThen(s0: map<SessionDate, seq<Candle>>, s1: map<SessionDate, seq<Candle>>,
                   s2: map<SessionDate, seq<Candle>>, a: set<SessionDate>, b: set<SessionDate>, h: seq<Candle>)
    requires Stored(s0, s1, a, h) && Stored(s1, s2, b, h)
    ensures Stored(s0, s2, a + b, h)
  {
    hide DayBars;
    forall d | d in s0 && d !in a + b ensures s2[d] == s0[d] { assert d in s1.Keys && d in s2.Keys; }
    forall d | d in a + b ensures s2[d] == DayBars(h, d) { if d !in b { assert d in s1.Keys; } }
  }

  lemma FetchedThen(c: Cache, c1: Cache, c2: Cache, a: set<SessionDate>, b: set<SessionDate>, h: seq<Candle>)
    requires Fetched(c, c1, a, h) && Fetched(c1, c2, b, h)
    ensures Fetched(c, c2, a + b, h)
  {
    StoredThen(c.store, c1.store, c2.store, a, b, h);
    if b == {} { StoredNothing(c1.store, c2.store, h); }
    hide Stored; hide Widened;
    if a == {} { assert a + b == b; }
    else if b == {} { assert a + b == a; }
    else {
      assert a <= a + b;
      WidenedThen(RowOf(c), c1.row.value, c2.row.value, a, b);
    }
  }

  lemma WidenedThen(r0: Coverage, r1: Coverage, r2: Coverage, a: set<SessionDate>, b: set<SessionDate>)
    requires Widened(r0, r1, a) && Widened(r1, r2, b)
    ensures Widened(r0, r2, a + b)
  {}

  function Days(s: seq<SessionDate>): set<SessionDate> { set d | d in s }

  lemma {:induction false} PutDaysStores(store: map<SessionDate, seq<Candle>>, days: seq<SessionDate>,
                                         bars: seq<Candle>, h: seq<Candle>)
    requires forall d :: d in days ==> DayBars(bars, d) == DayBars(h, d)
    ensures Stored(store, PutDays(store, days, bars), Days(days), h)
  {
    hide DayBars; hide Stored;
    if days == [] {
      StoredSame(store, h);
    } else {
      var n := |days| - 1;
      PutDaysStores(store, days[..n], bars, h);
      assert days == days[..n] + [days[n]];
      assert Days(days) == Days(days[..n]) + {days[n]};
      assert days[n] in days;
      StoredOneMore(store, PutDays(store, days[..n], bars), Days(days[..n]), days[n], h);
    }
  }

  lemma StoredSame(s: map<SessionDate, seq<Candle>>, h: seq<Candle>)
    ensures Stored(s, s, Days([]), h)
  {}

  lemma StoredOneMore(s0: map<SessionDate, seq<Candle>>, s: map<SessionDate, seq<Candle>>, days: set<SessionDate>,
                      d: SessionDate, h: seq<Candle>)
    requires Stored(s0, s, days, h)
    ensures Stored(s0, s[d := DayBars(h, d)], days + {d}, h)
  {
    hide DayBars;
    var more := s[d := DayBars(h, d)];
    assert more.Keys == s0.Keys + (days + {d});
    forall e | e in s0 && e !in days + {d} ensures more[e] == s0[e] { assert e in s.Keys; }
  }

  lemma {:induction false} WidenStretches(row: Coverage, days: seq<SessionDate>)
    requires days != []
    ensures Widened(row, Widen(row, days), Days(days))
  {
    var n := |days| - 1;
    assert days == days[..n] + [days[n]];
    assert Days(days) == Days(days[..n]) + {days[n]};
    if n > 0 { WidenStretches(row, days[..n]); }
    else { assert Widen(row, days[..n]) == row; }
  }

  /** What may be written of the requested days: all of them, or all but the days before a first one with bars. */
  ghost predicate WrittenFrom(w: set<SessionDate>, days: seq<SessionDate>, leftExtend: bool, h: seq<Candle>) {
    && (forall d :: d in w ==> d in days)
    && (forall d :: d in days ==> d in w || (leftExtend && !HasBars(h, d)))
    && (leftExtend ==> forall e :: e in w ==> exists b :: b in w && b <= e && HasBars(h, b))
  }

  lemma {:induction false} DropBareWrites(days: seq<SessionDate>, bars: seq<Candle>, h: seq<Candle>)
    requires Increasing(days)
    requires forall d :: d in days ==> DayBars(bars, d) == DayBars(h, d)
    ensures WrittenFrom(Days(DropBare(days, bars)), days, true, h)
  {
    hide DayBars;
    if days != [] {
      if DayBars(bars, days[0]) != [] {
        assert HasBars(h, days[0]) by { assert days[0] in days; }
        forall e | e in Days(days) ensures exists b :: b in Days(days) && b <= e && HasBars(h, b) {
          assert days[0] in Days(days);
        }
      } else {
        assert days == [days[0]] + days[1..];
        DropBareWrites(days[1..], bars, h);
      }
    }
  }

  ghost predicate ClosedChunks(chunks: seq<seq<SessionDate>>, today: SessionDate) {
    && AllChunks(chunks)
    && forall i :: 0 <= i < |chunks| ==> Increasing(chunks[i]) && forall d :: d in chunks[i] ==> d < today
  }

  lemma ChunkServed(h: seq<Candle>, now: Timestamp, chunk: seq<SessionDate>)
    requires InHours(h) && chunk != [] && AllDates(chunk) && Increasing(chunk)
    requires forall d :: d in chunk ==> d < Today(now)
    ensures forall d :: d in chunk ==> DayBars(ChunkBars(h, now, chunk), d) == DayBars(h, d)
  {
    hide IsDate; hide FromIst; hide DayBars; hide ChunkBars; hide IsSession; hide Today; hide InHours;
    forall d | d in chunk ensures DayBars(ChunkBars(h, now, chunk), d) == DayBars(h, d) {
      var i :| 0 <= i < |chunk| && chunk[i] == d;
      ChunkBarsComplete(h, now, chunk, d);
    }
  }

  lemma ChunkWrites(h: seq<Candle>, now: Timestamp, chunk: seq<SessionDate>, leftExtend: bool, c: Cache)
    requires InHours(h) && chunk != [] && AllDates(chunk) && Increasing(chunk)
    requires forall d :: d in chunk ==> d < Today(now)
    ensures var bars := ChunkBars(h, now, chunk); var w := ToWrite(chunk, bars, leftExtend);
            Fetched(c, StoreChunk(c, w, bars), Days(w), h) && WrittenFrom(Days(w), chunk, leftExtend, h)
  {
    hide IsDate; hide FromIst; hide DayBars; hide ChunkBars; hide IsSession; hide Today; hide InHours; hide DropBare;
    hide Increasing; hide AllDates; hide Fetched; hide HasBars; hide StoreChunk;
    var bars := ChunkBars(h, now, chunk);
    var w := ToWrite(chunk, bars, leftExtend);
    ChunkServed(h, now, chunk);
    DropBareWrites(chunk, bars, h);
    StoreChunkFetches(c, w, bars, h);
  }

  lemma StoreChunkFetches(c: Cache, w: seq<SessionDate>, bars: seq<Candle>, h: seq<Candle>)
    requires forall d :: d in w ==> DayBars(bars, d) == DayBars(h, d)
    ensures Fetched(c, StoreChunk(c, w, bars), Days(w), h)
  {
    hide DayBars; hide PutDays; hide Widen; hide Stored;
    PutDaysStores(c.store, w, bars, h);
    if w != [] {
      WidenStretches(RowOf(c), w);
      assert w[0] in Days(w);
    } else {
      assert Days(w) == {};
    }
  }

  /** fetch_and_store, whatever the chunking, adds full vendor days and stretches the row over them. */
  lemma {:induction false} FetchChunksWrite(c: Cache, chunks: seq<seq<SessionDate>>, leftExtend: bool, h: seq<Candle>,
                                            now: Timestamp)
    returns (w: set<SessionDate>)
    requires InHours(h) && ClosedChunks(chunks, Today(now))
    ensures Fetched(c, FetchChunks(c, chunks, leftExtend, h, now), w, h)
    ensures WrittenFrom(w, Concat(chunks), leftExtend, h)
    decreases |chunks|
  {
    hide IsDate; hide FromIst; hide ChunkBars; hide DayBars; hide Fetched; hide Today; hide InHours; hide HasBars;
    if chunks == [] {
      w := {};
      NothingFetched(c, h);
    } else {
      var bars := ChunkBars(h, now, chunks[0]);
      var days := ToWrite(chunks[0], bars, leftExtend);
      var c1 := StoreChunk(c, days, bars);
      ChunkWrites(h, now, chunks[0], leftExtend, c);
      hide ToWrite; hide StoreChunk;
      var rest := FetchChunksWrite(c1, chunks[1..], leftExtend, h, now);
      w := Days(days) + rest;
      FetchedThen(c, c1, FetchChunks(c, chunks, leftExtend, h, now), Days(days), rest, h);
      WrittenJoin(Days(days), chunks[0], rest, Concat(chunks[1..]), leftExtend, h);
    }
  }

  lemma NothingFetched(c: Cache, h: seq<Candle>)
    ensures Fetched(c, c, {}, h)
  {}

  lemma WrittenJoin(a: set<SessionDate>, x: seq<SessionDate>, b: set<SessionDate>, y: seq<SessionDate>,
                    leftExtend: bool, h: seq<Candle>)
    requires WrittenFrom(a, x, leftExtend, h) && WrittenFrom(b, y, leftExtend, h)
    ensures WrittenFrom(a + b, x + y, leftExtend, h)
  {
    hide HasBars;
  }

  lemma SliceClosed(days: seq<SessionDate>, i: nat, j: nat, today: SessionDate)
    requires Increasing(days) && (forall d :: d in days ==> d < today) && i <= j <= |days|
    ensures Increasing(days[i..j]) && forall d :: d in days[i..j] ==> d < today && d in days
  {
    var s := days[i..j];
    forall d | d in s ensures d < today && d in days {
      var k :| 0 <= k < |s| && s[k] == d;
      assert days[i + k] == d && days[i + k] in days;
    }
  }

  lemma {:induction false} GreedyClosed(days: seq<SessionDate>, today: SessionDate)
    requires AllDates(days) && Increasing(days) && forall d :: d in days ==> d < today
    ensures ClosedChunks(Greedy(days), today)
  {
    hide IsDate; hide FirstLen; hide Greedy; hide Increasing; hide AllDates;
    GreedyChunks(days);
    if days == [] { GreedyOfNothing(); }
    else {
      var k := FirstLen(days, 1);
      GreedyCut(days, k);
      TailKeepsOrder(days, k);
      SliceClosed(days, 0, k, today);
      SliceClosed(days, k, |days|, today);
      assert days[k..] == days[k..|days|] && days[..k] == days[0..k];
      GreedyClosed(days[k..], today);
      var g := Greedy(days);
      assert g == [days[..k]] + Greedy(days[k..]);
      forall i | 0 <= i < |g| ensures Increasing(g[i]) && forall d :: d in g[i] ==> d < today {
        if i > 0 { assert g[i] == Greedy(days[k..])[i - 1]; }
      }
    }
  }

  lemma FetchWrites(c: Cache, days: seq<SessionDate>, leftExtend: bool, h: seq<Candle>, now: Timestamp)
    returns (w: set<SessionDate>)
    requires InHours(h) && AllDates(days) && Increasing(days) && forall d :: d in days ==> d < Today(now)
    ensures Fetched(c, FetchAndStore(c, days, leftExtend, h, now), w, h)
    ensures WrittenFrom(w, days, leftExtend, h)
  {
    hide IsDate; hide FromIst; hide ChunkBars; hide DayBars; hide Fetched; hide Today; hide InHours; hide WrittenFrom;
    hide FetchChunks; hide Greedy;
    GreedyChunks(days);
    GreedyClosed(days, Today(now));
    GreedyPartitions(days);
    w := FetchChunksWrite(c, Greedy(days), leftExtend, h, now);
  }

  // ---------------------------------------------------------------- the invariant

  ghost predicate Ranged(c: Cache) {
    c.row.Some? && c.row.value.first.Some? && c.row.value.last.Some?
  }

  function First(c: Cache): SessionDate
    requires Ranged(c)
  { c.row.value.first.value }

  function Last(c: Cache): SessionDate
    requires Ranged(c)
  { c.row.value.last.value }

  /** The coverage row describes the store: every key is a session of the closed range or the live
      day, closed days hold the vendor's full day, the range ends before today, and a live day L
      follows directly on the range. */
  ghost predicate Sound(c: Cache, today: SessionDate, h: seq<Candle>) {
    if c.row.None? then c.store == map[]
    else
      && Ranged(c) && IsDate(First(c)) && Last(c) < today
      && c.row.value.sessions == |c.store|
      && (forall d :: d in c.store ==> IsSession(d) && (First(c) <= d <= Last(c) || c.row.value.live == Some(d)))
      && (forall d :: d in c.store && c.row.value.live != Some(d) ==> c.store[d] == DayBars(h, d))
      && match c.row.value.live
         case None => First(c) <= Last(c)
         case Some(x) =>
           IsSession(x) && EPOCH <= x <= today && First(c) <= x && x in c.store &&
           Last(c) == PrevSession(x) && Last(c) < x && NoSessionBetween(Last(c), x)
  }

  /** A day the closed range must hold: every session (strict), or every session with vendor bars. */
  ghost predicate Needed(h: seq<Candle>, d: SessionDate, strict: bool) {
    IsSession(d) && (strict || HasBars(h, d))
  }

  ghost predicate NoneNeeded(h: seq<Candle>, lo: SessionDate, hi: SessionDate, strict: bool) {
    forall e :: lo < e < hi ==> !Needed(h, e, strict)
  }

  /** The range has no missing key. */
  ghost predicate HoldsAll(c: Cache, h: seq<Candle>, strict: bool) {
    Ranged(c) ==> forall d :: Needed(h, d, strict) && First(c) <= d <= Last(c) ==> d in c.store
  }

  /** No live day is left over from an earlier date. */
  ghost predicate Sealed(c: Cache, today: SessionDate) {
    c.row.Some? ==> c.row.value.live == None || c.row.value.live == Some(today)
  }

  // ---------------------------------------------------------------- filling the closed range

  /** A closed request [a, b] leaves no gap towards the covered range. */
  ghost predicate FillFits(c: Cache, a: SessionDate, b: SessionDate, h: seq<Candle>, strict: bool) {
    Ranged(c) ==>
      && (b < First(c) && (exists d :: a <= d <= b && IsSession(d) && HasBars(h, d)) ==>
        NoneNeeded(h, b, First(c), strict))
      && (a > Last(c) && (exists d :: a <= d <= b && IsSession(d) && First(c) <= d) ==>
        NoneNeeded(h, Last(c), a, strict))
  }

  predicate Leftish(c: Cache, d: SessionDate) {
    c.row.None? || BeforeFirst(c, d)
  }

  /** What fill_closed writes for [a, b]. */
  ghost predicate FillWrites(c: Cache, w: set<SessionDate>, a: SessionDate, b: SessionDate, h: seq<Candle>) {
    && (forall d :: d in w ==> IsSession(d) && a <= d <= b && !Covered(c, d))
    && (forall d :: IsSession(d) && a <= d <= b && !Covered(c, d) ==> d in w || (Leftish(c, d) && !HasBars(h, d)))
    && (forall e :: e in w && Leftish(c, e) ==> exists x :: x in w && x <= e && HasBars(h, x))
  }

  lemma FillClosedWrites(c: Cache, a: SessionDate, b: SessionDate, h: seq<Candle>, now: Timestamp)
    returns (w: set<SessionDate>)
    requires InHours(h) && IsDate(a) && b < Today(now) && (c.row.None? || Ranged(c))
    ensures Fetched(c, FillClosed(c, a, b, h, now), w, h)
    ensures FillWrites(c, w, a, b, h)
  {
    hide IsDate; hide IsSession; hide HasBars; hide InHours; hide Fetched; hide Today; hide FetchAndStore;
    hide Increasing; hide AllDates; hide Filter;
    var p := IsLeft(c);
    var q := IsRest(c);
    PickedDates(a, b, p);
    PickedDates(a, b, q);
    var left, rest := LeftDays(c, a, b), RestDays(c, a, b);
    var c1 := FetchAndStore(c, left, true, h, now);
    var w1 := FetchWrites(c, left, true, h, now);
    var w2 := FetchWrites(c1, rest, !(c.row.Some? && c.row.value.first.Some?), h, now);
    w := w1 + w2;
    FetchedThen(c, c1, FillClosed(c, a, b, h, now), w1, w2, h);
    FillJoins(c, w1, w2, left, rest, a, b, h);
  }

  lemma FillJoins(c: Cache, w1: set<SessionDate>, w2: set<SessionDate>, left: seq<SessionDate>, rest: seq<SessionDate>,
                  a: SessionDate, b: SessionDate, h: seq<Candle>)
    requires forall d :: d in left <==> a <= d <= b && IsSession(d) && !Covered(c, d) && BeforeFirst(c, d)
    requires forall d :: d in rest <==> a <= d <= b && IsSession(d) && !Covered(c, d) && !BeforeFirst(c, d)
    requires WrittenFrom(w1, left, true, h) && WrittenFrom(w2, rest, !(c.row.Some? && c.row.value.first.Some?), h)
    requires c.row.None? || Ranged(c)
    ensures FillWrites(c, w1 + w2, a, b, h)
  {
    hide IsSession; hide HasBars; hide BeforeFirst; hide Covered; hide WrittenFrom; hide Leftish;
    var w, leftEnd := w1 + w2, !(c.row.Some? && c.row.value.first.Some?);
    forall e | e in w && Leftish(c, e) ensures exists x :: x in w && x <= e && HasBars(h, x) {
      JoinedEarlier(c, w1, w2, left, rest, h, e);
    }
    forall d | d in w ensures IsSession(d) && a <= d <= b && !Covered(c, d) {
      WrittenIs(w1, left, true, h, d);
      WrittenIs(w2, rest, leftEnd, h, d);
    }
    forall d | IsSession(d) && a <= d <= b && !Covered(c, d) ensures d in w || (Leftish(c, d) && !HasBars(h, d)) {
      JoinedMisses(c, w1, w2, left, rest, h, d);
    }
  }

  /** A requested day that was not written is one without bars before the range. */
  lemma JoinedMisses(c: Cache, w1: set<SessionDate>, w2: set<SessionDate>, left: seq<SessionDate>,
                     rest: seq<SessionDate>, h: seq<Candle>, d: SessionDate)
    requires WrittenFrom(w1, left, true, h) && WrittenFrom(w2, rest, !(c.row.Some? && c.row.value.first.Some?), h)
    requires d in left ==> BeforeFirst(c, d)
    requires d in left || d in rest
    requires c.row.None? || Ranged(c)
    ensures d in w1 + w2 || (Leftish(c, d) && !HasBars(h, d))
  {
    hide HasBars; hide WrittenFrom;
    WrittenIs(w1, left, true, h, d);
    WrittenIs(w2, rest, !(c.row.Some? && c.row.value.first.Some?), h, d);
  }

  lemma WrittenIs(w: set<SessionDate>, days: seq<SessionDate>, leftExtend: bool, h: seq<Candle>, d: SessionDate)
    requires WrittenFrom(w, days, leftExtend, h)
    ensures d in w ==> d in days
    ensures d in days ==> d in w || (leftExtend && !HasBars(h, d))
  {
    hide HasBars;
  }

  lemma JoinedEarlier(c: Cache, w1: set<SessionDate>, w2: set<SessionDate>, left: seq<SessionDate>,
                      rest: seq<SessionDate>, h: seq<Candle>, e: SessionDate)
    requires forall d :: d in rest ==> !BeforeFirst(c, d)
    requires WrittenFrom(w1, left, true, h) && WrittenFrom(w2, rest, !(c.row.Some? && c.row.value.first.Some?), h)
    requires e in w1 + w2 && Leftish(c, e)
    ensures exists x :: x in w1 + w2 && x <= e && HasBars(h, x)
  {
    hide HasBars; hide BeforeFirst;
    var w := w1 + w2;
    var leftEnd := !(c.row.Some? && c.row.value.first.Some?);
    if e in w1 { Earlier(w1, w, left, true, h, e); }
    else { Earlier(w2, w, rest, leftEnd, h, e); }
  }

  lemma Earlier(w1: set<SessionDate>, w: set<SessionDate>, days: seq<SessionDate>, leftExtend: bool, h: seq<Candle>,
                e: SessionDate)
    requires WrittenFrom(w1, days, leftExtend, h) && w1 <= w && e in w1 && leftExtend
    ensures exists x :: x in w && x <= e && HasBars(h, x)
  {
    hide HasBars;
    var x :| x in w1 && x <= e && HasBars(h, x);
    assert x in w;
  }

  /** How a fetch moves the ends of the range. */
  ghost predicate Grown(c: Cache, c': Cache, w: set<SessionDate>) {
    && c'.store.Keys == c.store.Keys + w
    && (c.row.None? && w == {} ==> c'.row.None?)
    && (c.row.Some? || w != {} ==>
      && Ranged(c')
      && (First(c') in w || (Ranged(c) && First(c') == First(c)))
      && (Last(c') in w || (Ranged(c) && Last(c') == Last(c)))
      && (forall d :: d in w ==> First(c') <= d <= Last(c')))
    && (Ranged(c) ==> First(c') <= First(c) && Last(c) <= Last(c') && c'.row.value.live == c.row.value.live)
    && (c.row.None? && w != {} ==> c'.row.value.live == None)
  }

  lemma FetchGrows(c: Cache, c': Cache, w: set<SessionDate>, h: seq<Candle>)
    requires Fetched(c, c', w, h) && (c.row.None? || Ranged(c))
    ensures Grown(c, c', w)
  {
    hide DayBars;
    if w != {} && (forall d :: d !in w) { assert false; }
  }

  lemma FillKeepsSound(c: Cache, c': Cache, w: set<SessionDate>, a: SessionDate, b: SessionDate, h: seq<Candle>,
                       today: SessionDate)
    requires Sound(c, today, h) && Sealed(c, today) && b < today
    requires Fetched(c, c', w, h) && FillWrites(c, w, a, b, h)
    ensures Sound(c', today, h) && Sealed(c', today)
  {
    hide IsSession; hide IsDate; hide PrevSession; hide DayBars; hide HasBars;
    FetchGrows(c, c', w, h);
    if w == {} {
      StoredNothing(c.store, c'.store, h);
    } else {
      SessionIsDate(First(c'));
      FillKeepsContents(c, c', w, a, b, h, today);
    }
  }

  lemma FillKeepsContents(c: Cache, c': Cache, w: set<SessionDate>, a: SessionDate, b: SessionDate, h: seq<Candle>,
                          today: SessionDate)
    requires Sound(c, today, h) && Sealed(c, today) && b < today && w != {}
    requires Fetched(c, c', w, h) && Grown(c, c', w) && FillWrites(c, w, a, b, h)
    ensures Ranged(c') && Last(c') < today
    ensures forall d :: d in c'.store ==> IsSession(d) && (First(c') <= d <= Last(c') || c'.row.value.live == Some(d))
    ensures forall d :: d in c'.store && c'.row.value.live != Some(d) ==> c'.store[d] == DayBars(h, d)
    ensures c'.row.value.live == None ==> First(c') <= Last(c')
    ensures c'.row.value.live.Some? ==> Ranged(c) && Last(c') == Last(c)
  {
    hide IsSession; hide IsDate; hide PrevSession; hide DayBars; hide HasBars; hide Widened;
  }

  lemma FillIff(c: Cache, c': Cache, w: set<SessionDate>, a: SessionDate, b: SessionDate, h: seq<Candle>,
                today: SessionDate, strict: bool)
    requires Sound(c, today, h) && Sealed(c, today) && b < today && HoldsAll(c, h, strict)
    requires Fetched(c, c', w, h) && FillWrites(c, w, a, b, h)
    requires strict ==> Dense(h, today)
    ensures FillFits(c, a, b, h, strict) ==> HoldsAll(c', h, strict)
    ensures HoldsAll(c', h, strict) ==> FillFits(c, a, b, h, strict)
  {
    hide IsSession; hide IsDate; hide PrevSession; hide DayBars; hide HasBars; hide Sound; hide Fetched;
    hide FillWrites; hide Dense;
    if FillFits(c, a, b, h, strict) { FillFitsEnough(c, c', w, a, b, h, today, strict); }
    if HoldsAll(c', h, strict) { FillFitsNeeded(c, c', w, a, b, h, today, strict); }
  }

  lemma FillFitsEnough(c: Cache, c': Cache, w: set<SessionDate>, a: SessionDate, b: SessionDate, h: seq<Candle>,
                       today: SessionDate, strict: bool)
    requires Sound(c, today, h) && b < today && HoldsAll(c, h, strict)
    requires Fetched(c, c', w, h) && FillWrites(c, w, a, b, h)
    requires strict ==> Dense(h, today)
    requires FillFits(c, a, b, h, strict)
    ensures HoldsAll(c', h, strict)
  {
    hide PrevSession;
    FetchGrows(c, c', w, h);
    hide IsSession; hide IsDate; hide PrevSession; hide DayBars; hide HasBars; hide Fetched; hide Dense;
    hide FillWrites; hide FillFits; hide NoneNeeded;
    if Ranged(c') {
      forall d | Needed(h, d, strict) && First(c') <= d <= Last(c') ensures d in c'.store {
        if d !in c'.store {
          assert !Covered(c, d);
          hide Sound; hide HoldsAll;
          if a <= d <= b { MissedInside(c, c', w, a, b, h, today, strict, d); }
          else if Ranged(c) && d < First(c) { MissedLeft(c, c', w, a, b, h, strict, d); }
          else { MissedRight(c, c', w, a, b, h, strict, d); }
        }
      }
    }
  }

  lemma MissedInside(c: Cache, c': Cache, w: set<SessionDate>, a: SessionDate, b: SessionDate, h: seq<Candle>,
                     today: SessionDate, strict: bool, d: SessionDate)
    requires Grown(c, c', w) && FillWrites(c, w, a, b, h) && b < today && (c.row.None? || Ranged(c))
    requires strict ==> Dense(h, today)
    requires Needed(h, d, strict) && Ranged(c') && First(c') <= d <= Last(c') && !Covered(c, d) && a <= d <= b
    ensures d in w
  {
    hide IsSession; hide HasBars; hide FillWrites; hide Dense;
    if d !in w {
      UnwrittenIsBare(c, w, a, b, h, d);
      var x := EarlierBars(c, w, a, b, h, First(c'));
      DenseFrom(h, today, x, d);
    }
  }

  lemma UnwrittenIsBare(c: Cache, w: set<SessionDate>, a: SessionDate, b: SessionDate, h: seq<Candle>, d: SessionDate)
    requires FillWrites(c, w, a, b, h) && IsSession(d) && a <= d <= b && !Covered(c, d) && d !in w
    ensures Leftish(c, d) && !HasBars(h, d)
  {
    hide IsSession; hide HasBars;
  }

  lemma EarlierBars(c: Cache, w: set<SessionDate>, a: SessionDate, b: SessionDate, h: seq<Candle>, e: SessionDate)
    returns (x: SessionDate)
    requires FillWrites(c, w, a, b, h) && e in w && Leftish(c, e)
    ensures x in w && x <= e && HasBars(h, x) && IsSession(x) && a <= x <= b
  {
    hide IsSession; hide HasBars;
    x :| x in w && x <= e && HasBars(h, x);
  }

  lemma DenseFrom(h: seq<Candle>, today: SessionDate, x: SessionDate, d: SessionDate)
    ensures Dense(h, today) && IsSession(x) && IsSession(d) && x <= d < today && HasBars(h, x) ==> HasBars(h, d)
  {
    hide IsSession; hide HasBars;
  }

  lemma MissedLeft(c: Cache, c': Cache, w: set<SessionDate>, a: SessionDate, b: SessionDate, h: seq<Candle>,
                   strict: bool, d: SessionDate)
    requires Grown(c, c', w) && FillWrites(c, w, a, b, h) && FillFits(c, a, b, h, strict)
    requires Needed(h, d, strict) && Ranged(c') && First(c') <= d && Ranged(c) && d < First(c)
    ensures a <= d <= b
  {
    hide IsSession; hide HasBars; hide FillWrites;
    var x := EarlierBars(c, w, a, b, h, First(c'));
  }

  lemma MissedRight(c: Cache, c': Cache, w: set<SessionDate>, a: SessionDate, b: SessionDate, h: seq<Candle>,
                    strict: bool, d: SessionDate)
    requires Grown(c, c', w) && FillWrites(c, w, a, b, h) && FillFits(c, a, b, h, strict)
    requires c.row.None? || Ranged(c)
    requires Needed(h, d, strict) && Ranged(c') && First(c') <= d <= Last(c') && !Covered(c, d)
    requires Ranged(c) ==> First(c) <= d
    ensures a <= d <= b
  {
    hide IsSession; hide HasBars;
    assert Last(c') in w;
  }

  lemma FillFitsNeeded(c: Cache, c': Cache, w: set<SessionDate>, a: SessionDate, b: SessionDate, h: seq<Candle>,
                       today: SessionDate, strict: bool)
    requires Sound(c, today, h) && Sealed(c, today) && b < today
    requires Fetched(c, c', w, h) && FillWrites(c, w, a, b, h)
    requires HoldsAll(c', h, strict)
    ensures FillFits(c, a, b, h, strict)
  {
    hide PrevSession;
    FetchGrows(c, c', w, h);
    hide IsSession; hide IsDate; hide PrevSession; hide DayBars; hide HasBars; hide Fetched; hide FillWrites;
    if Ranged(c) {
      if b < First(c) && exists d :: a <= d <= b && IsSession(d) && HasBars(h, d) {
        var d :| a <= d <= b && IsSession(d) && HasBars(h, d);
        LeftGapStays(c, c', w, a, b, h, today, strict, d);
      }
      if a > Last(c) && exists d :: a <= d <= b && IsSession(d) && First(c) <= d {
        var d :| a <= d <= b && IsSession(d) && First(c) <= d;
        RightGapStays(c, c', w, a, b, h, today, strict, d);
      }
    }
  }

  lemma LeftGapStays(c: Cache, c': Cache, w: set<SessionDate>, a: SessionDate, b: SessionDate, h: seq<Candle>,
                     today: SessionDate, strict: bool, d: SessionDate)
    requires Sound(c, today, h) && Sealed(c, today) && Grown(c, c', w) && FillWrites(c, w, a, b, h)
      && HoldsAll(c', h, strict)
    requires Ranged(c) && a <= d <= b < First(c) && IsSession(d) && HasBars(h, d)
    ensures NoneNeeded(h, b, First(c), strict)
  {
    hide IsSession; hide IsDate; hide PrevSession; hide DayBars; hide HasBars;
    assert d in w;
  }

  lemma RightGapStays(c: Cache, c': Cache, w: set<SessionDate>, a: SessionDate, b: SessionDate, h: seq<Candle>,
                      today: SessionDate, strict: bool, d: SessionDate)
    requires Sound(c, today, h) && Sealed(c, today) && Grown(c, c', w) && FillWrites(c, w, a, b, h)
      && HoldsAll(c', h, strict)
    requires Ranged(c) && Last(c) < a <= d <= b < today && IsSession(d) && First(c) <= d
    ensures NoneNeeded(h, Last(c), a, strict)
  {
    hide IsSession; hide IsDate; hide PrevSession; hide DayBars; hide HasBars;
    assert d in w;
  }
}
