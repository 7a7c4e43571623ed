/** Requests on which the coverage promise fails: they show that the fitting condition is needed. */
module CacheWitness {
  import opened Domain
  import opened SessionCalendar
  import opened MarketCache
  import opened CacheCoverage
  import opened CacheRequests

  /** A request that lies within one closed IST date. */
  ghost predicate ForDay(r: Request, d: SessionDate) {
    r.from != 0 && r.to != 0 && FromIst(r.from) == d && FromIst(r.to) == d && IsSession(d) && d < Today(r.now)
  }

  lemma ForDayBounds(r: Request, d: SessionDate)
    requires ForDay(r, d)
    ensures ClosedTo(r.now, r.to) == d && !WantsToday(r.now, r.from, r.to)
  {
    hide IsSession; hide IsDate; hide FromIst; hide PrevSession;
    PrevSessionIsGreatest(Today(r.now));
    if r.to >= r.now { IstMonotone(r.now, r.to); }
  }

  /** Asking an empty cache for one day leaves exactly that day. */
  lemma FirstDay(r: Request, d: SessionDate, h: seq<Candle>)
    requires InHours(h) && ForDay(r, d) && HasBars(h, d)
    ensures var c := Ensure(EMPTY_CACHE, r.now, r.from, r.to, h);
      c.row.Some? && Ranged(c) && First(c) == d && Last(c) == d && c.row.value.live == None && d in c.store
        && Sound(c, Today(r.now), h)
  {
    hide IsSession; hide IsDate; hide FromIst; hide PrevSession; hide HasBars; hide DayBars; hide InHours;
    hide ClosedTo; hide Today; hide WantsToday;
    hide FillClosed;
    ForDayBounds(r, d);
    var today := Today(r.now);
    assert Seal(EMPTY_CACHE, today, h, r.now) == EMPTY_CACHE;
    SessionIsDate(d);
    var w := FillClosedWrites(EMPTY_CACHE, d, d, h, r.now);
    var c := FillClosed(EMPTY_CACHE, d, d, h, r.now);
    FetchGrows(EMPTY_CACHE, c, w, h);
    assert d in w;
    FillKeepsSound(EMPTY_CACHE, c, w, d, d, h, today);
  }

  /** Two requests for non-adjacent days: the day between them is listed as covered but never stored,
      although the vendor has its bars. */
  lemma SkippingRequestLosesDay(r1: Request, r3: Request, d1: SessionDate, d2: SessionDate, d3: SessionDate,
                                h: seq<Candle>, strict: bool)
    requires InHours(h) && ForDay(r1, d1) && ForDay(r3, d3) && r1.now <= r3.now
    requires IsSession(d2) && d1 < d2 < d3 && HasBars(h, d1) && HasBars(h, d2) && HasBars(h, d3)
    requires Dense(h, Today(r3.now))
    ensures !HoldsAll(Run([r1, r3], h), h, strict)
  {
    hide IsSession; hide IsDate; hide FromIst; hide PrevSession; hide HasBars; hide DayBars; hide InHours;
    hide ClosedTo; hide WantsToday; hide Dense;
    hide Ensure; hide Sound; hide RowDates;
    TwoRequests(r1, r3, h);
    FirstDay(r1, d1, h);
    var c1 := Run([r1], h);
    IstMonotone(r1.now, r3.now);
    ForDayBounds(r3, d3);
    SingleDayHolds(c1, d1, Today(r1.now), h, strict);
    EnsureIff(c1, Today(r1.now), r3.now, r3.from, r3.to, h, strict);
    assert Seal(c1, Today(r3.now), h, r3.now) == c1;
    assert Needed(h, d2, strict);
    assert !NoneNeeded(h, d1, d3, strict);
    assert d3 <= d3 && IsSession(d3) && First(c1) <= d3;
    assert !FillFits(c1, d3, d3, h, strict);
  }

  lemma TwoRequests(r1: Request, r2: Request, h: seq<Candle>)
    ensures Run([r1], h) == Ensure(EMPTY_CACHE, r1.now, r1.from, r1.to, h)
    ensures RowDates(Run([r1], h))
    ensures Run([r1, r2], h) == Ensure(Run([r1], h), r2.now, r2.from, r2.to, h)
  {
    hide Ensure; hide RowDates;
    assert [r1, r2][..1] == [r1] && [r1][..0] == [];
  }

  lemma SingleDayHolds(c: Cache, d: SessionDate, today: SessionDate, h: seq<Candle>, strict: bool)
    requires Ranged(c) && First(c) == d && Last(c) == d && Sound(c, today, h) && c.row.value.live == None
    ensures HoldsAll(c, h, strict) <==> d in c.store || !Needed(h, d, strict)
  {
    hide IsSession; hide IsDate; hide PrevSession; hide HasBars; hide DayBars;
  }

  /** A request for today alone moves the range's end to the previous session without fetching the
      sessions before it. */
  lemma TodayAloneLosesDay(r1: Request, r2: Request, d1: SessionDate, d2: SessionDate, h: seq<Candle>, strict: bool)
    requires InHours(h) && ForDay(r1, d1) && r1.now <= r2.now && HasBars(h, d1) && HasBars(h, d2)
      && Dense(h, Today(r2.now))
    requires IsSession(d2) && d1 < d2 < Today(r2.now) && IsSession(Today(r2.now))
    requires r2.from != 0 && FromIst(r2.from) == Today(r2.now) && r2.to == 0
    ensures !HoldsAll(Run([r1, r2], h), h, strict)
  {
    hide IsSession; hide IsDate; hide FromIst; hide PrevSession; hide HasBars; hide DayBars; hide InHours;
    hide ClosedTo; hide Dense;
    hide Ensure; hide Sound; hide RowDates;
    TwoRequests(r1, r2, h);
    FirstDay(r1, d1, h);
    var c1 := Run([r1], h);
    IstMonotone(r1.now, r2.now);
    SingleDayHolds(c1, d1, Today(r1.now), h, strict);
    EnsureIff(c1, Today(r1.now), r2.now, r2.from, r2.to, h, strict);
    ClosedToBounds(r2.now, r2.to);
    assert Seal(c1, Today(r2.now), h, r2.now) == c1;
    assert Needed(h, d2, strict);
    assert !NoneNeeded(h, d1, Today(r2.now), strict);
  }

  // ---------------------------------------------------------------- a concrete history

  function BarAt(d: SessionDate): Candle
    requires IsDate(d) && d >= EPOCH
  {
    OpenIsPositive(d);
    Candle(IstHm(d, 9, 15), 10000, 10000, 10000, 10000, 1)
  }

  lemma OpenIsPositive(d: SessionDate)
    requires IsDate(d) && d >= EPOCH
    ensures IstHm(d, 0, 0) >= -19_800_000_000_000 && IstHm(d, 9, 15) > 0
  {
    hide DayNumber; hide IsDate;
    EpochDay();
    OrderIsDayOrder(EPOCH, d);
  }

  lemma BarAtDate(d: SessionDate)
    requires IsDate(d) && d >= EPOCH
    ensures FromIst(BarAt(d).ts) == d && BarAt(d).ts <= IstHm(d, 23, 59)
  {
    hide IsDate; hide FromIst; hide DayNumber;
    IstOrder(BarAt(d).ts, d);
  }

  /** The four days used below: Tuesday 1 to Friday 4 September 2026. */
  lemma FirstWeekOfSeptember()
    ensures IsSession(20260901) && IsSession(20260902) && IsSession(20260903) && IsSession(20260904)
  {
    hide IsSession;
    InSeptember(1); InSeptember(2); InSeptember(3); InSeptember(4);
  }

  lemma InSeptember(k: int)
    requires 1 <= k <= 4
    ensures IsSession(20260900 + k)
  {
    hide Year; hide Month; hide Day;
    PartsOf(2026, 9, k);
    assert FromParts(2026, 9, k) == 20260900 + k;
  }

  function ThreeDays(): seq<Candle> {
    FirstWeekOfSeptember();
    [BarAt(20260901), BarAt(20260902), BarAt(20260903)]
  }

  lemma ThreeDaysAreDense()
    ensures InHours(ThreeDays()) && Dense(ThreeDays(), 20260904)
    ensures HasBars(ThreeDays(), 20260901) && HasBars(ThreeDays(), 20260902) && HasBars(ThreeDays(), 20260903)
    ensures IsSession(20260901) && IsSession(20260902) && IsSession(20260903) && IsSession(20260904)
  {
    FirstWeekOfSeptember();
    hide IsSession; hide FromIst; hide IstHm; hide IsDate;
    SessionIsDate(20260901); SessionIsDate(20260902); SessionIsDate(20260903);
    BarAtDate(20260901); BarAtDate(20260902); BarAtDate(20260903);
    hide BarAt;
    assert ThreeDays()[0] in ThreeDays() && ThreeDays()[1] in ThreeDays() && ThreeDays()[2] in ThreeDays();
    DayMember(ThreeDays(), 20260901); DayMember(ThreeDays(), 20260902); DayMember(ThreeDays(), 20260903);
    hide HasBars;
    forall d, e | IsSession(d) && IsSession(e) && d < e < 20260904 && HasBars(ThreeDays(), d)
      ensures HasBars(ThreeDays(), e)
    {
      DayMember(ThreeDays(), d);
      assert d == 20260901 || d == 20260902 || d == 20260903;
      assert e == 20260902 || e == 20260903;
    }
  }

  function DayRequest(now: Timestamp, d: SessionDate): Request
    requires IsDate(d) && d >= EPOCH
  {
    OpenIsPositive(d);
    Request(now, IstHm(d, 9, 15), IstHm(d, 9, 15))
  }

  /** At 09:15 on 4 September 2026 with one bar a day from the 1st on: asking for the 1st and then the
      3rd loses the 2nd, and asking for the 1st and then for today loses the 2nd and the 3rd. */
  lemma LostDays(strict: bool)
    ensures IsSession(20260901) && IsSession(20260903) && IsSession(20260904)
    ensures var now := BarAt(20260904).ts;
      && !HoldsAll(Run([DayRequest(now, 20260901), DayRequest(now, 20260903)], ThreeDays()), ThreeDays(), strict)
      && !HoldsAll(Run([DayRequest(now, 20260901), Request(now, now, 0)], ThreeDays()), ThreeDays(), strict)
  {
    ThreeDaysAreDense();
    hide IsSession; hide FromIst; hide HasBars; hide InHours; hide Dense; hide HoldsAll; hide Run; hide IsDate;
    hide IstHm;
    forall d ensures IsSession(d) ==> IsDate(d) { SessionIsDate(d); }
    BarAtDate(20260901); BarAtDate(20260903); BarAtDate(20260904);
    OpenIsPositive(20260901); OpenIsPositive(20260903); OpenIsPositive(20260904);
    var now := BarAt(20260904).ts;
    SkippingRequestLosesDay(DayRequest(now, 20260901), DayRequest(now, 20260903), 20260901, 20260902, 20260903,
      ThreeDays(), strict);
    TodayAloneLosesDay(DayRequest(now, 20260901), Request(now, now, 0), 20260901, 20260902, ThreeDays(), strict);
  }
}
