/** What DataFetchService does to one (ticker, resolution) series, as functions on its state:
    the stored sessions, the coverage row and the vendor call counter. */
module MarketCache {
  import opened Domain
  import opened Selection
  import opened SessionCalendar
  import opened Chunker

  const LIVE_TTL_NS := 30 * 60 * 1_000_000_000

  datatype Coverage = Coverage(
    first: Option<SessionDate>,
    last: Option<SessionDate>,
    live: Option<SessionDate>,
    fetchedAt: Option<Timestamp>,
    sessions: nat)

  datatype Cache = Cache(store: map<SessionDate, seq<Candle>>, row: Option<Coverage>, fetches: nat)

  const NO_COVERAGE := Coverage(None, None, None, None, 0)

  function RowOf(c: Cache): Coverage {
    if c.row.Some? then c.row.value else NO_COVERAGE
  }

  /** Writing the coverage row recounts the stored sessions. */
  function Persist(c: Cache, row: Coverage): Cache {
    c.(row := Some(row.(sessions := |c.store|)))
  }

  // ---------------------------------------------------------------- the vendor

  /** The loader's bounds: zero means unbounded. */
  predicate Within(ts: Timestamp, lo: int, hi: int) {
    (lo == 0 || ts >= lo) && (hi == 0 || ts <= hi)
  }

  function ServedAt(now: Timestamp, lo: int, hi: int): Candle -> bool {
    (c: Candle) => c.ts <= now && Within(c.ts, lo, hi)
  }

  function OnDate(d: SessionDate): Candle -> bool {
    (c: Candle) => FromIst(c.ts) == d
  }

  function UpToDate(d: SessionDate): Candle -> bool {
    (c: Candle) => FromIst(c.ts) <= d
  }

  function Inside(from: Timestamp, to: Timestamp): Candle -> bool {
    (c: Candle) => Within(c.ts, from, to)
  }

  /** What the vendor serves at time now: the bars that exist by then, inside the bounds. */
  function Vendor(h: seq<Candle>, now: Timestamp, lo: int, hi: int): seq<Candle> {
    Filter(h, ServedAt(now, lo, hi))
  }

  /** The bars of one IST date, in order. */
  function DayBars(h: seq<Candle>, d: SessionDate): seq<Candle> {
    Filter(h, OnDate(d))
  }

  // ---------------------------------------------------------------- fetch_and_store

  function PutDays(store: map<SessionDate, seq<Candle>>, days: seq<SessionDate>, bars: seq<Candle>)
    : map<SessionDate, seq<Candle>>
  {
    if days == [] then store
    else PutDays(store, days[..|days| - 1], bars)[days[|days| - 1] := DayBars(bars, days[|days| - 1])]
  }

  function WidenDay(row: Coverage, d: SessionDate): Coverage {
    row.(first := if row.first.None? || d < row.first.value then Some(d) else row.first,
         last := if row.last.None? || d > row.last.value then Some(d) else row.last)
  }

  function Widen(row: Coverage, days: seq<SessionDate>): Coverage {
    if days == [] then row else WidenDay(Widen(row, days[..|days| - 1]), days[|days| - 1])
  }

  /** Skip the leading days for which the vendor returned nothing. */
  function DropBare(days: seq<SessionDate>, bars: seq<Candle>): seq<SessionDate> {
    if days == [] then [] else if DayBars(bars, days[0]) != [] then days else DropBare(days[1..], bars)
  }

  function ToWrite(chunk: seq<SessionDate>, bars: seq<Candle>, leftExtend: bool): seq<SessionDate> {
    if leftExtend then DropBare(chunk, bars) else chunk
  }

  function ChunkBars(h: seq<Candle>, now: Timestamp, chunk: seq<SessionDate>): seq<Candle>
    requires chunk != [] && AllDates(chunk)
  {
    Vendor(h, now, IstHm(chunk[0], 0, 0), IstHm(chunk[|chunk| - 1], 23, 59))
  }

  function StoreChunk(c: Cache, days: seq<SessionDate>, bars: seq<Candle>): Cache {
    var c1 := c.(store := PutDays(c.store, days, bars), fetches := c.fetches + 1);
    if days == [] then c1 else Persist(c1, Widen(RowOf(c), days))
  }

  ghost predicate AllChunks(chunks: seq<seq<SessionDate>>) {
    forall i :: 0 <= i < |chunks| ==> chunks[i] != [] && AllDates(chunks[i])
  }

  ghost function FetchChunks(c: Cache, chunks: seq<seq<SessionDate>>, leftExtend: bool, h: seq<Candle>,
                             now: Timestamp): Cache
    requires AllChunks(chunks)
    decreases |chunks|
  {
    if chunks == [] then c
    else
      var bars := ChunkBars(h, now, chunks[0]);
      FetchChunks(StoreChunk(c, ToWrite(chunks[0], bars, leftExtend), bars), chunks[1..], leftExtend, h, now)
  }

  lemma {:induction false} GreedyChunks(days: seq<SessionDate>)
    requires AllDates(days)
    ensures AllChunks(Greedy(days))
  {
    hide IsDate; hide FirstLen;
    if days != [] {
      GreedyChunks(days[FirstLen(days, 1)..]);
    }
  }

  ghost function FetchAndStore(c: Cache, days: seq<SessionDate>, leftExtend: bool, h: seq<Candle>,
                               now: Timestamp): Cache
    requires AllDates(days)
  {
    GreedyChunks(days);
    FetchChunks(c, Greedy(days), leftExtend, h, now)
  }

  // ---------------------------------------------------------------- the request

  /** Stored dates that the calendar functions may be applied to. */
  ghost predicate RowDates(c: Cache) {
    c.row.Some? ==>
      && (c.row.value.first.Some? ==> IsDate(c.row.value.first.value))
      && (c.row.value.live.Some? ==> IsDate(c.row.value.live.value))
  }

  predicate StaleLive(c: Cache, today: SessionDate) {
    c.row.Some? && c.row.value.live.Some? && !(IsSession(today) && c.row.value.live.value == today)
  }

  /** A live day that is no longer today is fetched again in full and joins the closed range. */
  ghost function Seal(c: Cache, today: SessionDate, h: seq<Candle>, now: Timestamp): Cache
    requires RowDates(c)
  {
    if !StaleLive(c, today) then c
    else
      var live := c.row.value.live.value;
      var c1 := FetchAndStore(c, [live], false, h, now);
      var row := RowOf(c1);
      Persist(c1, row.(
        last := if row.last.None? || live > row.last.value then Some(live) else row.last,
        first := if row.first.None? then Some(live) else row.first,
        live := None))
  }

  predicate Covered(c: Cache, d: SessionDate) {
    c.row.Some? && c.row.value.first.Some? && c.row.value.last.Some? &&
    c.row.value.first.value <= d <= c.row.value.last.value
  }

  predicate BeforeFirst(c: Cache, d: SessionDate) {
    c.row.Some? && c.row.value.first.Some? && d < c.row.value.first.value
  }

  function IsLeft(c: Cache): SessionDate -> bool {
    d => !Covered(c, d) && BeforeFirst(c, d)
  }

  function IsRest(c: Cache): SessionDate -> bool {
    d => !Covered(c, d) && !BeforeFirst(c, d)
  }

  ghost function LeftDays(c: Cache, lo: SessionDate, hi: SessionDate): seq<SessionDate>
    requires IsDate(lo)
  {
    Filter(SessionList(lo, hi), IsLeft(c))
  }

  ghost function RestDays(c: Cache, lo: SessionDate, hi: SessionDate): seq<SessionDate>
    requires IsDate(lo)
  {
    Filter(SessionList(lo, hi), IsRest(c))
  }

  lemma PickedDates(lo: SessionDate, hi: SessionDate, p: SessionDate -> bool)
    requires IsDate(lo)
    ensures AllDates(Filter(SessionList(lo, hi), p))
    ensures Increasing(Filter(SessionList(lo, hi), p))
    ensures forall d :: d in Filter(SessionList(lo, hi), p) <==> lo <= d <= hi && IsSession(d) && p(d)
  {
    hide IsDate; hide IsSession;
    SessionListIsExact(lo, hi);
    FilterIncreasing(SessionList(lo, hi), p);
    FilterMember(SessionList(lo, hi), p);
    var s := Filter(SessionList(lo, hi), p);
    forall i | 0 <= i < |s| ensures IsDate(s[i]) { assert s[i] in s; SessionIsDate(s[i]); }
  }

  /** Fetch the requested closed sessions the range does not hold yet, older ones first. */
  ghost function FillClosed(c: Cache, lo: SessionDate, hi: SessionDate, h: seq<Candle>, now: Timestamp): Cache
    requires IsDate(lo)
  {
    PickedDates(lo, hi, IsLeft(c));
    PickedDates(lo, hi, IsRest(c));
    var c1 := FetchAndStore(c, LeftDays(c, lo, hi), true, h, now);
    FetchAndStore(c1, RestDays(c, lo, hi), !(c.row.Some? && c.row.value.first.Some?), h, now)
  }

  function MinDate(bars: seq<Candle>): SessionDate
    requires bars != []
  {
    var d := FromIst(bars[|bars| - 1].ts);
    if |bars| == 1 then d else Min(MinDate(bars[..|bars| - 1]), d)
  }

  function Discovered(h: seq<Candle>, now: Timestamp, closedTo: SessionDate): seq<Candle>
    requires IsDate(closedTo)
  {
    Filter(Vendor(h, now, 0, IstHm(closedTo, 23, 59)), UpToDate(closedTo))
  }

  lemma {:induction false} MinDateIsLeast(bars: seq<Candle>)
    requires bars != []
    ensures IsDate(MinDate(bars)) && MinDate(bars) >= EPOCH
    ensures exists c :: c in bars && FromIst(c.ts) == MinDate(bars)
    ensures forall c :: c in bars ==> MinDate(bars) <= FromIst(c.ts)
  {
    hide IsDate; hide FromIst;
    var x := bars[|bars| - 1];
    IstOrder(x.ts, FromIstDate(x.ts));
    if |bars| > 1 {
      MinDateIsLeast(bars[..|bars| - 1]);
      assert bars == bars[..|bars| - 1] + [x];
    }
    assert x in bars;
  }

  function FromIstDate(ts: Timestamp): (d: SessionDate)
    ensures IsDate(d) && d == FromIst(ts)
  {
    FromIst(ts)
  }

  /** First request ever: ask for everything and keep every session from the first bar on. */
  ghost function Discover(c: Cache, closedTo: SessionDate, h: seq<Candle>, now: Timestamp): Cache
    requires IsDate(closedTo)
  {
    var bars := Discovered(h, now, closedTo);
    var c1 := c.(fetches := c.fetches + 1);
    if bars == [] then c1
    else
      MinDateIsLeast(bars);
      var first := MinDate(bars);
      Persist(c1.(store := PutDays(c.store, SessionList(first, closedTo), bars)),
              NO_COVERAGE.(first := Some(first), last := Some(closedTo)))
  }

  predicate LiveFresh(row: Coverage, now: Timestamp) {
    row.fetchedAt.Some? && now - row.fetchedAt.value <= LIVE_TTL_NS
  }

  /** Refetch today's sessions unless the stored copy is recent; today never joins the closed range. */
  ghost function RefreshToday(c: Cache, today: SessionDate, h: seq<Candle>, now: Timestamp): Cache
    requires IsDate(today) && today >= EPOCH
  {
    if RowOf(c).live == Some(today) && LiveFresh(RowOf(c), now) then c
    else
      var c1 := FetchAndStore(c, [today], false, h, now);
      var row := RowOf(c1);
      Persist(c1, row.(
        last := if row.last == Some(today) then Some(PrevSession(today)) else row.last,
        live := Some(today),
        fetchedAt := Some(now)))
  }

  function ClampTo(to: Timestamp, now: Timestamp): Timestamp {
    if to == 0 || to > now then now else to
  }

  function Today(now: Timestamp): (d: SessionDate)
    ensures IsDate(d) && d >= EPOCH
  {
    FromIst(now)
  }

  /** The last closed session the request reaches. */
  function ClosedTo(now: Timestamp, to: Timestamp): (d: SessionDate)
    ensures IsDate(d)
  {
    var closedEnd := PrevSession(Today(now));
    PrevSessionIsGreatest(Today(now));
    SessionIsDate(closedEnd);
    var toDate := FromIstDate(ClampTo(to, now));
    if toDate < closedEnd then toDate else closedEnd
  }

  predicate WantsToday(now: Timestamp, from: Timestamp, to: Timestamp) {
    IsSession(Today(now)) && FromIst(ClampTo(to, now)) >= Today(now) && (from == 0 || FromIst(from) <= Today(now))
  }

  ghost function EnsureClosed(c: Cache, now: Timestamp, from: Timestamp, to: Timestamp, h: seq<Candle>): Cache
    requires RowDates(c)
  {
    if from == 0 then
      if c.row.Some? && c.row.value.first.Some?
      then FillClosed(c, c.row.value.first.value, ClosedTo(now, to), h, now)
      else Discover(c, ClosedTo(now, to), h, now)
    else if FromIst(from) <= ClosedTo(now, to)
    then FillClosed(c, FromIstDate(from), ClosedTo(now, to), h, now)
    else c
  }

  lemma {:induction false} FetchKeepsRowDates(c: Cache, chunks: seq<seq<SessionDate>>, leftExtend: bool, h: seq<Candle>,
                                              now: Timestamp)
    requires AllChunks(chunks) && RowDates(c)
    ensures RowDates(FetchChunks(c, chunks, leftExtend, h, now))
    decreases |chunks|
  {
    hide IsDate; hide DayBars; hide ChunkBars;
    if chunks != [] {
      var bars := ChunkBars(h, now, chunks[0]);
      var w := ToWrite(chunks[0], bars, leftExtend);
      DropBareDates(chunks[0], bars);
      WidenDates(RowOf(c), w);
      FetchKeepsRowDates(StoreChunk(c, w, bars), chunks[1..], leftExtend, h, now);
    }
  }

  lemma {:induction false} DropBareDates(days: seq<SessionDate>, bars: seq<Candle>)
    requires AllDates(days)
    ensures AllDates(DropBare(days, bars))
  {
    hide IsDate; hide DayBars;
    if days != [] { DropBareDates(days[1..], bars); }
  }

  lemma {:induction false} WidenDates(row: Coverage, days: seq<SessionDate>)
    requires AllDates(days) && (row.first.Some? ==> IsDate(row.first.value))
    ensures var r := Widen(row, days); (r.first.Some? ==> IsDate(r.first.value)) && r.live == row.live
  {
    hide IsDate;
    if days != [] { WidenDates(row, days[..|days| - 1]); }
  }

  /** ensure_data_available: seal, fill the closed part, then refresh today if it is wanted. */
  ghost function Ensure(c: Cache, now: Timestamp, from: Timestamp, to: Timestamp, h: seq<Candle>): Cache
    requires RowDates(c)
  {
    SealKeepsRowDates(c, Today(now), h, now);
    var c2 := EnsureClosed(Seal(c, Today(now), h, now), now, from, to, h);
    if WantsToday(now, from, to) then RefreshToday(c2, Today(now), h, now) else c2
  }

  lemma SealKeepsRowDates(c: Cache, today: SessionDate, h: seq<Candle>, now: Timestamp)
    requires RowDates(c)
    ensures RowDates(Seal(c, today, h, now))
  {
    hide IsDate; hide DayBars; hide ChunkBars; hide IsSession;
    if StaleLive(c, today) {
      GreedyChunks([c.row.value.live.value]);
      FetchKeepsRowDates(c, Greedy([c.row.value.live.value]), false, h, now);
    }
  }

  lemma FillKeepsRowDates(c: Cache, lo: SessionDate, hi: SessionDate, h: seq<Candle>, now: Timestamp)
    requires RowDates(c) && IsDate(lo)
    ensures RowDates(FillClosed(c, lo, hi, h, now))
  {
    hide IsDate; hide IsSession; hide RowDates; hide FetchChunks; hide Greedy;
    PickedDates(lo, hi, IsLeft(c));
    PickedDates(lo, hi, IsRest(c));
    var left, rest := LeftDays(c, lo, hi), RestDays(c, lo, hi);
    GreedyChunks(left);
    GreedyChunks(rest);
    FetchKeepsRowDates(c, Greedy(left), true, h, now);
    FetchKeepsRowDates(FetchAndStore(c, left, true, h, now), Greedy(rest), !(c.row.Some? && c.row.value.first.Some?), h,
      now);
  }

  lemma EnsureKeepsRowDates(c: Cache, now: Timestamp, from: Timestamp, to: Timestamp, h: seq<Candle>)
    requires RowDates(c)
    ensures RowDates(Ensure(c, now, from, to, h))
  {
    hide IsDate; hide IsSession; hide FetchChunks; hide Greedy; hide FillClosed; hide FromIst; hide ClosedTo;
    hide Today; hide Seal; hide PrevSession;
    var today := Today(now);
    SealKeepsRowDates(c, today, h, now);
    var c1 := Seal(c, today, h, now);
    if from == 0 && !(c1.row.Some? && c1.row.value.first.Some?) {
      var bars := Discovered(h, now, ClosedTo(now, to));
      if bars != [] { MinDateIsLeast(bars); }
    } else if from == 0 || FromIst(from) <= ClosedTo(now, to) {
      FillKeepsRowDates(c1, if from == 0 then c1.row.value.first.value else FromIstDate(from), ClosedTo(now, to), h,
        now);
    }
    GreedyChunks([today]);
    FetchKeepsRowDates(EnsureClosed(c1, now, from, to, h), Greedy([today]), false, h, now);
  }

  // ---------------------------------------------------------------- load_bars

  /** The bars of the listed sessions that lie inside the request. */
  function Serve(store: map<SessionDate, seq<Candle>>, dates: seq<SessionDate>, from: Timestamp,
                 to: Timestamp): seq<Candle>
    requires forall d :: d in dates ==> d in store
  {
    if dates == [] then []
    else
      var n := |dates| - 1;
      var d := dates[n];
      assert d in dates;
      Serve(store, dates[..n], from, to) + Filter(store[d], Inside(from, to))
  }

  /** dates lists, in order, the stored sessions that the request's dates span. */
  ghost predicate Lists(dates: seq<SessionDate>, store: map<SessionDate, seq<Candle>>, now: Timestamp, from: Timestamp,
                        to: Timestamp)
  {
    && Increasing(dates)
    && forall d :: d in dates <==>
         d in store && (from == 0 || FromIst(from) <= d) && d <= FromIst(ClampTo(to, now))
  }
}
