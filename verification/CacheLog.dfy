/** The log of every single write of a request: each put_session and each coverage row, with the state it
    leaves. */
module CacheLog {
  import opened Domain
  import opened Selection
  import opened SessionCalendar
  import opened Chunker
  import opened MarketCache

  datatype Write = Blob(date: SessionDate, bars: seq<Candle>, after: Cache) | Row(after: Cache)

  ghost function PutsLog(c: Cache, days: seq<SessionDate>, bars: seq<Candle>): (log: seq<Write>)
    ensures |log| == |days|
    ensures forall i :: 0 <= i < |days| ==>
      log[i] == Blob(days[i], DayBars(bars, days[i]), c.(store := PutDays(c.store, days[..i + 1], bars)))
  {
    seq(|days|, i requires 0 <= i < |days| =>
      Blob(days[i], DayBars(bars, days[i]), c.(store := PutDays(c.store, days[..i + 1], bars))))
  }

  lemma PutsMore(c: Cache, days: seq<SessionDate>, bars: seq<Candle>, i: nat)
    requires i < |days|
    ensures PutsLog(c, days[..i + 1], bars) == PutsLog(c, days[..i], bars) +
      [Blob(days[i], DayBars(bars, days[i]), c.(store := PutDays(c.store, days[..i + 1], bars)))]
  {
    hide DayBars; hide PutDays;
    var a, b := PutsLog(c, days[..i + 1], bars), PutsLog(c, days[..i], bars);
    assert days[..i + 1][..i + 1] == days[..i + 1];
    forall k | 0 <= k < i ensures a[k] == b[k] { assert days[..i + 1][..k + 1] == days[..i][..k + 1]; }
  }

  ghost function ChunkLog(c: Cache, w: seq<SessionDate>, bars: seq<Candle>): seq<Write> {
    PutsLog(c.(fetches := c.fetches + 1), w, bars) + if w == [] then [] else [Row(StoreChunk(c, w, bars))]
  }

  ghost function FetchLog(c: Cache, chunks: seq<seq<SessionDate>>, leftExtend: bool, h: seq<Candle>, now: Timestamp)
    : seq<Write>
    requires AllChunks(chunks)
    decreases |chunks|
  {
    if chunks == [] then []
    else
      var bars := ChunkBars(h, now, chunks[0]);
      var w := ToWrite(chunks[0], bars, leftExtend);
      ChunkLog(c, w, bars) + FetchLog(StoreChunk(c, w, bars), chunks[1..], leftExtend, h, now)
  }

  /** The writes of fetch_and_store. */
  ghost function DaysLog(c: Cache, days: seq<SessionDate>, leftExtend: bool, h: seq<Candle>, now: Timestamp): seq<Write>
    requires AllDates(days)
  {
    GreedyChunks(days);
    FetchLog(c, Greedy(days), leftExtend, h, now)
  }

  ghost function SealLog(c: Cache, today: SessionDate, h: seq<Candle>, now: Timestamp): seq<Write>
    requires RowDates(c)
  {
    if !StaleLive(c, today) then []
    else DaysLog(c, [c.row.value.live.value], false, h, now) + [Row(Seal(c, today, h, now))]
  }

  ghost function FillLog(c: Cache, lo: SessionDate, hi: SessionDate, h: seq<Candle>, now: Timestamp): seq<Write>
    requires IsDate(lo)
  {
    PickedDates(lo, hi, IsLeft(c));
    PickedDates(lo, hi, IsRest(c));
    var c1 := FetchAndStore(c, LeftDays(c, lo, hi), true, h, now);
    DaysLog(c, LeftDays(c, lo, hi), true, h, now)
    + DaysLog(c1, RestDays(c, lo, hi), !(c.row.Some? && c.row.value.first.Some?), h, now)
  }

  ghost function DiscoverLog(c: Cache, closedTo: SessionDate, h: seq<Candle>, now: Timestamp): seq<Write>
    requires IsDate(closedTo)
  {
    var bars := Discovered(h, now, closedTo);
    if bars == [] then []
    else
      MinDateIsLeast(bars);
      PutsLog(c.(fetches := c.fetches + 1), SessionList(MinDate(bars), closedTo), bars)
      + [Row(Discover(c, closedTo, h, now))]
  }

  ghost function RefreshLog(c: Cache, today: SessionDate, h: seq<Candle>, now: Timestamp): seq<Write>
    requires IsDate(today) && today >= EPOCH
  {
    if RowOf(c).live == Some(today) && LiveFresh(RowOf(c), now) then []
    else DaysLog(c, [today], false, h, now) + [Row(RefreshToday(c, today, h, now))]
  }

  ghost function ClosedLog(c: Cache, now: Timestamp, from: Timestamp, to: Timestamp, h: seq<Candle>): seq<Write>
    requires RowDates(c)
  {
    if from == 0 then
      if c.row.Some? && c.row.value.first.Some?
      then FillLog(c, c.row.value.first.value, ClosedTo(now, to), h, now)
      else DiscoverLog(c, ClosedTo(now, to), h, now)
    else if FromIst(from) <= ClosedTo(now, to)
    then FillLog(c, FromIstDate(from), ClosedTo(now, to), h, now)
    else []
  }

  /** The writes of ensure_data_available. */
  ghost function EnsureLog(c: Cache, now: Timestamp, from: Timestamp, to: Timestamp, h: seq<Candle>): seq<Write>
    requires RowDates(c)
  {
    SealKeepsRowDates(c, Today(now), h, now);
    var c1 := Seal(c, Today(now), h, now);
    SealLog(c, Today(now), h, now) + ClosedLog(c1, now, from, to, h)
    + if WantsToday(now, from, to) then RefreshLog(EnsureClosed(c1, now, from, to, h), Today(now), h, now) else []
  }

  // ---------------------------------------------------------------- the log replays the store

  function Before(store: map<SessionDate, seq<Candle>>, log: seq<Write>, i: nat): map<SessionDate, seq<Candle>>
    requires i <= |log|
  {
    if i == 0 then store else log[i - 1].after.store
  }

  /** A put changes its own date only, a row changes no date. */
  ghost predicate Replays(store: map<SessionDate, seq<Candle>>, log: seq<Write>) {
    forall i :: 0 <= i < |log| ==>
      log[i].after.store ==
        match log[i]
        case Blob(d, bars, _) => Before(store, log, i)[d := bars]
        case Row(_) => Before(store, log, i)
  }

  /** The log leads from one store to another. */
  ghost predicate Leads(store: map<SessionDate, seq<Candle>>, log: seq<Write>, to: map<SessionDate, seq<Candle>>) {
    Replays(store, log) && Before(store, log, |log|) == to
  }

  lemma LeadsThen(s0: map<SessionDate, seq<Candle>>, a: seq<Write>, s1: map<SessionDate, seq<Candle>>,
                  b: seq<Write>, s2: map<SessionDate, seq<Candle>>)
    requires Leads(s0, a, s1) && Leads(s1, b, s2)
    ensures Leads(s0, a + b, s2)
  {
    var log := a + b;
    forall i | 0 <= i < |log|
      ensures log[i].after.store ==
        match log[i]
        case Blob(d, bars, _) => Before(s0, log, i)[d := bars]
        case Row(_) => Before(s0, log, i)
    {
      if i < |a| {
        assert log[i] == a[i] && Before(s0, log, i) == Before(s0, a, i);
      } else {
        assert log[i] == b[i - |a|] && Before(s0, log, i) == Before(s1, b, i - |a|);
      }
    }
  }

  lemma NothingLeads(store: map<SessionDate, seq<Candle>>)
    ensures Leads(store, [], store)
  {}

  lemma RowLeads(c: Cache)
    ensures Leads(c.store, [Row(c)], c.store)
  {}

  lemma PutsLead(c: Cache, days: seq<SessionDate>, bars: seq<Candle>)
    ensures Leads(c.store, PutsLog(c, days, bars), PutDays(c.store, days, bars))
  {
    hide DayBars;
    hide PutsLog; hide PutDays;
    var log := PutsLog(c, days, bars);
    assert days[..|days|] == days;
    PutNothing(c.store, bars);
    forall i | 0 <= i < |log| ensures log[i].after.store == Before(c.store, log, i)[days[i] := DayBars(bars, days[i])] {
      PutOneMore(c.store, days, bars, i);
      if i == 0 { assert days[..0] == []; } else { assert days[..i - 1 + 1] == days[..i]; }
      assert Before(c.store, log, i) == PutDays(c.store, days[..i], bars);
    }
    if days == [] { assert days[..0] == []; }
  }

  lemma PutNothing(store: map<SessionDate, seq<Candle>>, bars: seq<Candle>)
    ensures PutDays(store, [], bars) == store
  {}

  lemma PutOneMore(store: map<SessionDate, seq<Candle>>, days: seq<SessionDate>, bars: seq<Candle>, i: nat)
    requires i < |days|
    ensures PutDays(store, days[..i + 1], bars) == PutDays(store, days[..i], bars)[days[i] := DayBars(bars, days[i])]
  {
    hide DayBars;
    assert days[..i + 1][..i] == days[..i];
  }

  lemma ChunkLeads(c: Cache, w: seq<SessionDate>, bars: seq<Candle>)
    ensures Leads(c.store, ChunkLog(c, w, bars), StoreChunk(c, w, bars).store)
  {
    hide Leads; hide PutDays; hide PutsLog;
    var s := StoreChunk(c, w, bars).store;
    PutsLead(c.(fetches := c.fetches + 1), w, bars);
    if w == [] { NothingLeads(s); LeadsThen(c.store, PutsLog(c.(fetches := c.fetches + 1), w, bars), s, [], s); }
    else {
      RowLeads(StoreChunk(c, w, bars));
      LeadsThen(c.store, PutsLog(c.(fetches := c.fetches + 1), w, bars), s, [Row(StoreChunk(c, w, bars))], s);
    }
  }

  lemma {:induction false} FetchLeads(c: Cache, chunks: seq<seq<SessionDate>>, leftExtend: bool, h: seq<Candle>,
                                      now: Timestamp)
    requires AllChunks(chunks)
    ensures Leads(c.store, FetchLog(c, chunks, leftExtend, h, now), FetchChunks(c, chunks, leftExtend, h, now).store)
    decreases |chunks|
  {
    hide Leads; hide ChunkLog; hide StoreChunk; hide ChunkBars; hide ToWrite; hide AllDates;
    if chunks == [] {
      NothingLeads(c.store);
    } else {
      var bars := ChunkBars(h, now, chunks[0]);
      var w := ToWrite(chunks[0], bars, leftExtend);
      var c1 := StoreChunk(c, w, bars);
      ChunkLeads(c, w, bars);
      FetchLeads(c1, chunks[1..], leftExtend, h, now);
      LeadsThen(c.store, ChunkLog(c, w, bars), c1.store, FetchLog(c1, chunks[1..], leftExtend, h, now),
        FetchChunks(c1, chunks[1..], leftExtend, h, now).store);
    }
  }

  lemma DaysLead(c: Cache, days: seq<SessionDate>, leftExtend: bool, h: seq<Candle>, now: Timestamp)
    requires AllDates(days)
    ensures Leads(c.store, DaysLog(c, days, leftExtend, h, now), FetchAndStore(c, days, leftExtend, h, now).store)
  {
    hide Leads; hide Greedy; hide FetchLog; hide FetchChunks; hide AllDates;
    GreedyChunks(days);
    FetchLeads(c, Greedy(days), leftExtend, h, now);
  }

  lemma SealLeads(c: Cache, today: SessionDate, h: seq<Candle>, now: Timestamp)
    requires RowDates(c)
    ensures Leads(c.store, SealLog(c, today, h, now), Seal(c, today, h, now).store)
  {
    hide Leads; hide DaysLog; hide FetchAndStore; hide IsSession; hide IsDate;
    if StaleLive(c, today) {
      var live := c.row.value.live.value;
      var end := Seal(c, today, h, now);
      DaysLead(c, [live], false, h, now);
      RowLeads(end);
      LeadsThen(c.store, DaysLog(c, [live], false, h, now), end.store, [Row(end)], end.store);
    } else {
      NothingLeads(c.store);
    }
  }

  lemma FillLeads(c: Cache, lo: SessionDate, hi: SessionDate, h: seq<Candle>, now: Timestamp)
    requires IsDate(lo)
    ensures Leads(c.store, FillLog(c, lo, hi, h, now), FillClosed(c, lo, hi, h, now).store)
  {
    hide Leads; hide DaysLog; hide FetchAndStore; hide IsSession; hide IsDate; hide Filter; hide AllDates;
    hide Increasing;
    PickedDates(lo, hi, IsLeft(c));
    PickedDates(lo, hi, IsRest(c));
    var left, rest := LeftDays(c, lo, hi), RestDays(c, lo, hi);
    var leftEnd := !(c.row.Some? && c.row.value.first.Some?);
    var c1 := FetchAndStore(c, left, true, h, now);
    DaysLead(c, left, true, h, now);
    DaysLead(c1, rest, leftEnd, h, now);
    LeadsThen(c.store, DaysLog(c, left, true, h, now), c1.store, DaysLog(c1, rest, leftEnd, h, now),
      FillClosed(c, lo, hi, h, now).store);
  }

  lemma DiscoverLeads(c: Cache, closedTo: SessionDate, h: seq<Candle>, now: Timestamp)
    requires IsDate(closedTo)
    ensures Leads(c.store, DiscoverLog(c, closedTo, h, now), Discover(c, closedTo, h, now).store)
  {
    hide Leads; hide PutsLog; hide IsDate; hide Discovered; hide MinDate; hide SessionList; hide PutDays; hide FromIst;
    var bars := Discovered(h, now, closedTo);
    if bars == [] {
      NothingLeads(c.store);
    } else {
      MinDateIsLeast(bars);
      var days, c1, end := SessionList(MinDate(bars), closedTo), c.(fetches := c.fetches + 1),
        Discover(c, closedTo, h, now);
      PutsLead(c1, days, bars);
      RowLeads(end);
      LeadsThen(c.store, PutsLog(c1, days, bars), end.store, [Row(end)], end.store);
    }
  }

  lemma RefreshLeads(c: Cache, today: SessionDate, h: seq<Candle>, now: Timestamp)
    requires IsDate(today) && today >= EPOCH
    ensures Leads(c.store, RefreshLog(c, today, h, now), RefreshToday(c, today, h, now).store)
  {
    hide Leads; hide DaysLog; hide FetchAndStore; hide IsDate; hide LiveFresh; hide PrevSession;
    if RowOf(c).live == Some(today) && LiveFresh(RowOf(c), now) {
      NothingLeads(c.store);
    } else {
      var end := RefreshToday(c, today, h, now);
      DaysLead(c, [today], false, h, now);
      RowLeads(end);
      LeadsThen(c.store, DaysLog(c, [today], false, h, now), end.store, [Row(end)], end.store);
    }
  }

  lemma ClosedLeads(c: Cache, now: Timestamp, from: Timestamp, to: Timestamp, h: seq<Candle>)
    requires RowDates(c)
    ensures Leads(c.store, ClosedLog(c, now, from, to, h), EnsureClosed(c, now, from, to, h).store)
  {
    hide Leads; hide FillLog; hide DiscoverLog; hide FillClosed; hide Discover; hide FromIst; hide ClosedTo;
    hide IsDate;
    NothingLeads(c.store);
    if from == 0 && !(c.row.Some? && c.row.value.first.Some?) {
      DiscoverLeads(c, ClosedTo(now, to), h, now);
    } else if from == 0 || FromIst(from) <= ClosedTo(now, to) {
      FillLeads(c, if from == 0 then c.row.value.first.value else FromIstDate(from), ClosedTo(now, to), h, now);
    }
  }

  /** The writes of a request lead from the store it meets to the store it leaves. */
  lemma EnsureLeads(c: Cache, now: Timestamp, from: Timestamp, to: Timestamp, h: seq<Candle>)
    requires RowDates(c)
    ensures Leads(c.store, EnsureLog(c, now, from, to, h), Ensure(c, now, from, to, h).store)
  {
    hide Leads; hide SealLog; hide ClosedLog; hide RefreshLog; hide Seal; hide EnsureClosed; hide RefreshToday;
    hide Today;
    hide WantsToday; hide RowDates; hide IsDate;
    SealKeepsRowDates(c, Today(now), h, now);
    var c1 := Seal(c, Today(now), h, now);
    var c2 := EnsureClosed(c1, now, from, to, h);
    var (a, b) := (SealLog(c, Today(now), h, now), ClosedLog(c1, now, from, to, h));
    SealLeads(c, Today(now), h, now);
    ClosedLeads(c1, now, from, to, h);
    LeadsThen(c.store, a, c1.store, b, c2.store);
    if WantsToday(now, from, to) {
      RefreshLeads(c2, Today(now), h, now);
      LeadsThen(c.store, a + b, c2.store, RefreshLog(c2, Today(now), h, now),
        RefreshToday(c2, Today(now), h, now).store);
    } else {
      assert a + b + [] == a + b;
    }
  }

  // ---------------------------------------------------------------- what is put

  /** Bars of the history, no more than there are. */
  ghost predicate TakenFrom(bars: seq<Candle>, h: seq<Candle>) {
    |bars| <= |h| && forall c :: c in bars ==> c in h
  }

  ghost predicate DaysWithin(days: seq<SessionDate>, lo: SessionDate, hi: SessionDate) {
    forall i :: 0 <= i < |days| ==> IsDate(days[i]) && lo <= days[i] <= hi
  }

  /** Every put is of a date in [lo, hi], with bars of the history. */
  ghost predicate PutsWithin(log: seq<Write>, lo: SessionDate, hi: SessionDate, h: seq<Candle>) {
    forall i :: 0 <= i < |log| && log[i].Blob? ==>
      IsDate(log[i].date) && lo <= log[i].date <= hi && TakenFrom(log[i].bars, h)
  }

  lemma WithinThen(a: seq<Write>, b: seq<Write>, lo: SessionDate, hi: SessionDate, h: seq<Candle>)
    requires PutsWithin(a, lo, hi, h) && PutsWithin(b, lo, hi, h)
    ensures PutsWithin(a + b, lo, hi, h)
  {
    hide TakenFrom; hide IsDate;
  }

  lemma RowWithin(c: Cache, lo: SessionDate, hi: SessionDate, h: seq<Candle>)
    ensures PutsWithin([Row(c)], lo, hi, h) && PutsWithin([], lo, hi, h)
  {}

  lemma FilterTakes(s: seq<Candle>, p: Candle -> bool, h: seq<Candle>)
    requires TakenFrom(s, h)
    ensures TakenFrom(Filter(s, p), h)
  {
    FilterMember(s, p);
    FilterShorter(s, p);
  }

  lemma PutsAreWithin(c: Cache, days: seq<SessionDate>, bars: seq<Candle>, lo: SessionDate, hi: SessionDate,
                      h: seq<Candle>)
    requires DaysWithin(days, lo, hi) && TakenFrom(bars, h)
    ensures PutsWithin(PutsLog(c, days, bars), lo, hi, h)
  {
    hide IsDate; hide TakenFrom; hide PutDays;
    forall i | 0 <= i < |days| ensures TakenFrom(DayBars(bars, days[i]), h) { FilterTakes(bars, OnDate(days[i]), h); }
  }

  lemma {:induction false} DropWithin(days: seq<SessionDate>, bars: seq<Candle>, lo: SessionDate, hi: SessionDate)
    requires DaysWithin(days, lo, hi)
    ensures DaysWithin(DropBare(days, bars), lo, hi)
  {
    hide IsDate; hide DayBars;
    if days != [] { DropWithin(days[1..], bars, lo, hi); }
  }

  lemma ChunkWithin(c: Cache, w: seq<SessionDate>, bars: seq<Candle>, lo: SessionDate, hi: SessionDate, h: seq<Candle>)
    requires DaysWithin(w, lo, hi) && TakenFrom(bars, h)
    ensures PutsWithin(ChunkLog(c, w, bars), lo, hi, h)
  {
    hide DaysWithin; hide PutsWithin; hide TakenFrom; hide PutsLog; hide StoreChunk;
    var puts := PutsLog(c.(fetches := c.fetches + 1), w, bars);
    PutsAreWithin(c.(fetches := c.fetches + 1), w, bars, lo, hi, h);
    RowWithin(StoreChunk(c, w, bars), lo, hi, h);
    WithinThen(puts, if w == [] then [] else [Row(StoreChunk(c, w, bars))], lo, hi, h);
  }

  lemma {:induction false} FetchWithin(c: Cache, chunks: seq<seq<SessionDate>>, leftExtend: bool, h: seq<Candle>,
                                       now: Timestamp, lo: SessionDate, hi: SessionDate)
    requires AllChunks(chunks) && forall i :: 0 <= i < |chunks| ==> DaysWithin(chunks[i], lo, hi)
    ensures PutsWithin(FetchLog(c, chunks, leftExtend, h, now), lo, hi, h)
    decreases |chunks|
  {
    hide DaysWithin; hide PutsWithin; hide TakenFrom; hide ChunkLog; hide StoreChunk; hide DropBare;
    hide IstHm; hide IsDate;
    if chunks == [] {
      RowWithin(c, lo, hi, h);
    } else {
      var bars := ChunkBars(h, now, chunks[0]);
      var w := ToWrite(chunks[0], bars, leftExtend);
      WholeTaken(h);
      FilterTakes(h, ServedAt(now, IstHm(chunks[0][0], 0, 0), IstHm(chunks[0][|chunks[0]| - 1], 23, 59)), h);
      DropWithin(chunks[0], bars, lo, hi);
      ChunkWithin(c, w, bars, lo, hi, h);
      FetchWithin(StoreChunk(c, w, bars), chunks[1..], leftExtend, h, now, lo, hi);
      WithinThen(ChunkLog(c, w, bars), FetchLog(StoreChunk(c, w, bars), chunks[1..], leftExtend, h, now), lo, hi, h);
    }
  }

  lemma WholeTaken(h: seq<Candle>)
    ensures TakenFrom(h, h)
  {}

  lemma {:induction false} GreedyWithin(days: seq<SessionDate>, lo: SessionDate, hi: SessionDate)
    requires AllDates(days) && DaysWithin(days, lo, hi)
    ensures forall i :: 0 <= i < |Greedy(days)| ==> DaysWithin(Greedy(days)[i], lo, hi)
  {
    hide IsDate; hide FirstLen; hide Greedy;
    if days == [] {
      GreedyOfNothing();
    } else {
      var k := FirstLen(days, 1);
      GreedyCut(days, k);
      GreedyWithin(days[k..], lo, hi);
    }
  }

  lemma DaysAreWithin(c: Cache, days: seq<SessionDate>, leftExtend: bool, h: seq<Candle>, now: Timestamp,
                      lo: SessionDate, hi: SessionDate)
    requires AllDates(days) && DaysWithin(days, lo, hi)
    ensures PutsWithin(DaysLog(c, days, leftExtend, h, now), lo, hi, h)
  {
    hide DaysWithin; hide PutsWithin; hide FetchLog; hide Greedy; hide AllDates;
    GreedyChunks(days);
    GreedyWithin(days, lo, hi);
    FetchWithin(c, Greedy(days), leftExtend, h, now, lo, hi);
  }

  lemma SealWithin(c: Cache, today: SessionDate, h: seq<Candle>, now: Timestamp, lo: SessionDate, hi: SessionDate)
    requires RowDates(c) && (c.row.Some? && c.row.value.live.Some? ==> lo <= c.row.value.live.value <= hi)
    ensures PutsWithin(SealLog(c, today, h, now), lo, hi, h)
  {
    hide PutsWithin; hide DaysLog; hide IsSession; hide IsDate; hide Seal;
    RowWithin(c, lo, hi, h);
    if StaleLive(c, today) {
      var live := c.row.value.live.value;
      DaysAreWithin(c, [live], false, h, now, lo, hi);
      RowWithin(Seal(c, today, h, now), lo, hi, h);
      WithinThen(DaysLog(c, [live], false, h, now), [Row(Seal(c, today, h, now))], lo, hi, h);
    }
  }

  lemma FillWithin(c: Cache, lo: SessionDate, hi: SessionDate, h: seq<Candle>, now: Timestamp, least: SessionDate,
                   most: SessionDate)
    requires IsDate(lo) && least <= lo && hi <= most
    ensures PutsWithin(FillLog(c, lo, hi, h, now), least, most, h)
  {
    hide PutsWithin; hide DaysLog; hide FetchAndStore; hide IsSession; hide IsDate; hide Filter; hide Increasing;
    PickedDates(lo, hi, IsLeft(c));
    PickedDates(lo, hi, IsRest(c));
    var left, rest := LeftDays(c, lo, hi), RestDays(c, lo, hi);
    var leftEnd := !(c.row.Some? && c.row.value.first.Some?);
    var c1 := FetchAndStore(c, left, true, h, now);
    forall i | 0 <= i < |left| ensures IsDate(left[i]) && least <= left[i] <= most { assert left[i] in left; }
    forall i | 0 <= i < |rest| ensures IsDate(rest[i]) && least <= rest[i] <= most { assert rest[i] in rest; }
    DaysAreWithin(c, left, true, h, now, least, most);
    DaysAreWithin(c1, rest, leftEnd, h, now, least, most);
    WithinThen(DaysLog(c, left, true, h, now), DaysLog(c1, rest, leftEnd, h, now), least, most, h);
  }

  lemma DiscoverWithin(c: Cache, closedTo: SessionDate, h: seq<Candle>, now: Timestamp, most: SessionDate)
    requires IsDate(closedTo) && closedTo <= most
    ensures PutsWithin(DiscoverLog(c, closedTo, h, now), EPOCH, most, h)
  {
    hide PutsWithin; hide PutsLog; hide IsDate; hide MinDate; hide SessionList; hide Discover; hide FromIst; hide IstHm;
    hide IsSession; hide TakenFrom; hide Increasing;
    var bars := Discovered(h, now, closedTo);
    RowWithin(c, EPOCH, most, h);
    if bars != [] {
      MinDateIsLeast(bars);
      var days, c1 := SessionList(MinDate(bars), closedTo), c.(fetches := c.fetches + 1);
      WholeTaken(h);
      FilterTakes(h, ServedAt(now, 0, IstHm(closedTo, 23, 59)), h);
      FilterTakes(Vendor(h, now, 0, IstHm(closedTo, 23, 59)), UpToDate(closedTo), h);
      SessionListIsExact(MinDate(bars), closedTo);
      forall i | 0 <= i < |days| ensures IsDate(days[i]) && EPOCH <= days[i] <= most {
        assert days[i] in days;
        SessionIsDate(days[i]);
      }
      PutsAreWithin(c1, days, bars, EPOCH, most, h);
      RowWithin(Discover(c, closedTo, h, now), EPOCH, most, h);
      WithinThen(PutsLog(c1, days, bars), [Row(Discover(c, closedTo, h, now))], EPOCH, most, h);
    }
  }

  lemma RefreshWithin(c: Cache, today: SessionDate, h: seq<Candle>, now: Timestamp, lo: SessionDate)
    requires IsDate(today) && today >= EPOCH && lo <= today
    ensures PutsWithin(RefreshLog(c, today, h, now), lo, today, h)
  {
    hide PutsWithin; hide DaysLog; hide IsDate; hide LiveFresh; hide RefreshToday;
    RowWithin(c, lo, today, h);
    if !(RowOf(c).live == Some(today) && LiveFresh(RowOf(c), now)) {
      DaysAreWithin(c, [today], false, h, now, lo, today);
      RowWithin(RefreshToday(c, today, h, now), lo, today, h);
      WithinThen(DaysLog(c, [today], false, h, now), [Row(RefreshToday(c, today, h, now))], lo, today, h);
    }
  }
}
