/** The vendor allows at most 28 calendar days per request; chunk_days cuts a day list to fit. */
module Chunker {
  import opened Domain
  import opened SessionCalendar

  const MAX_CHUNK_CALENDAR_DAYS := 28

  ghost predicate AllDates(days: seq<SessionDate>) {
    forall i :: 0 <= i < |days| ==> IsDate(days[i])
  }

  /** Calendar days covered by [a, b], both ends included. */
  function Span(a: SessionDate, b: SessionDate): int
    requires IsDate(a) && IsDate(b)
  {
    if a <= b then DayNumber(b) - DayNumber(a) + 1 else 1
  }

  lemma SpanGrows(a: SessionDate, b: SessionDate, c: SessionDate)
    requires IsDate(a) && IsDate(b) && IsDate(c) && a <= b <= c
    ensures Span(a, b) <= Span(a, c) && Span(b, c) <= Span(a, c)
  {
    hide DayNumber; hide IsDate;
    OrderIsDayOrder(a, b);
    OrderIsDayOrder(b, c);
  }

  method CalendarSpanDays(a: SessionDate, b: SessionDate) returns (n: int)
    requires IsDate(a) && IsDate(b)
    ensures n == Span(a, b)
  {
    hide DayNumber; hide IsDate; hide NextCalendarDay;
    n := 1;
    var d := a;
    while d < b
      invariant IsDate(d) && a <= d
      invariant if a <= b then d <= b else d == a
      invariant n == DayNumber(d) - DayNumber(a) + 1
      decreases b - d
    {
      NothingBetween(d, b);
      NextAddsOneDay(d);
      n := n + 1;
      d := NextCalendarDay(d);
    }
  }

  /** How many leading days fit one chunk, knowing that the first k do. */
  function FirstLen(days: seq<SessionDate>, k: nat): (r: nat)
    requires 1 <= k <= |days| && AllDates(days)
    ensures k <= r <= |days|
    decreases |days| - k
  {
    if k < |days| && Span(days[0], days[k]) <= MAX_CHUNK_CALENDAR_DAYS then FirstLen(days, k + 1) else k
  }

  /** Repeatedly cut off the longest leading run that fits. */
  function Greedy(days: seq<SessionDate>): seq<seq<SessionDate>>
    requires AllDates(days)
  {
    if days == [] then []
    else var k := FirstLen(days, 1); [days[..k]] + Greedy(days[k..])
  }

  method ChunkDays(days: seq<SessionDate>) returns (chunks: seq<seq<SessionDate>>)
    requires AllDates(days)
    ensures chunks == Greedy(days)
  {
    hide IsDate; hide Span; hide Greedy; hide FirstLen;
    chunks := [];
    var cur: seq<SessionDate> := [];
    ghost var start := 0;
    assert days[0..] == days;
    for i := 0 to |days|
      invariant 0 <= start <= i && cur == days[start..i] && (start == i ==> i == 0)
      invariant chunks + Greedy(days[start..]) == Greedy(days)
      invariant start < i ==> FirstLen(days[start..], 1) == FirstLen(days[start..], i - start)
    {
      var d := days[i];
      if cur == [] {
        cur := [d];
      } else {
        var n := CalendarSpanDays(cur[0], d);
        FirstLenStep(days[start..], i - start);
        if n > MAX_CHUNK_CALENDAR_DAYS {
          GreedyCut(days[start..], i - start);
          assert days[start..][..i - start] == cur && days[start..][i - start..] == days[i..];
          AppendChunk(chunks, cur, Greedy(days[i..]));
          chunks := chunks + [cur];
          cur := [d];
          start := i;
        } else {
          cur := cur + [d];
        }
      }
    }
    GreedyOfNothing();
    if cur != [] {
      var s := days[start..];
      FirstLenStep(s, |s|);
      GreedyCut(s, |s|);
      assert s[..|s|] == cur && s[|s|..] == [];
      chunks := chunks + [cur];
    }
  }

  lemma AppendChunk(a: seq<seq<SessionDate>>, c: seq<SessionDate>, b: seq<seq<SessionDate>>)
    ensures a + ([c] + b) == (a + [c]) + b
  {}

  lemma FirstLenStep(days: seq<SessionDate>, k: nat)
    requires 1 <= k <= |days| && AllDates(days)
    ensures FirstLen(days, k) ==
      if k < |days| && Span(days[0], days[k]) <= MAX_CHUNK_CALENDAR_DAYS then FirstLen(days, k + 1) else k
  {}

  lemma GreedyCut(days: seq<SessionDate>, k: nat)
    requires AllDates(days) && days != [] && k == FirstLen(days, 1)
    ensures Greedy(days) == [days[..k]] + Greedy(days[k..])
  {}

  lemma GreedyOfNothing()
    ensures Greedy([]) == []
  {}

  // ---------------------------------------------------------------- what the cut guarantees

  function Concat(chunks: seq<seq<SessionDate>>): seq<SessionDate> {
    if chunks == [] then [] else chunks[0] + Concat(chunks[1..])
  }

  ghost predicate Fits(c: seq<SessionDate>) {
    c != [] && IsDate(c[0]) && IsDate(c[|c| - 1]) && Span(c[0], c[|c| - 1]) <= 28
  }

  /** chunks cuts days into consecutive non-empty runs that each fit one request. */
  ghost predicate Partitions(chunks: seq<seq<SessionDate>>, days: seq<SessionDate>) {
    Concat(chunks) == days && forall i :: 0 <= i < |chunks| ==> Fits(chunks[i])
  }

  /** FirstLen stops at the first day that does not fit. */
  lemma {:induction false} FirstLenIsMaximal(days: seq<SessionDate>, k: nat)
    requires 1 <= k <= |days| && AllDates(days) && Increasing(days)
    requires Span(days[0], days[k - 1]) <= MAX_CHUNK_CALENDAR_DAYS
    ensures Span(days[0], days[FirstLen(days, k) - 1]) <= MAX_CHUNK_CALENDAR_DAYS
    ensures FirstLen(days, k) < |days| ==> Span(days[0], days[FirstLen(days, k)]) > MAX_CHUNK_CALENDAR_DAYS
    decreases |days| - k
  {
    hide IsDate; hide Span;
    if k < |days| && Span(days[0], days[k]) <= MAX_CHUNK_CALENDAR_DAYS { FirstLenIsMaximal(days, k + 1); }
  }

  /** The cut keeps every day in order, and every chunk fits one vendor request. */
  lemma {:induction false} GreedyPartitions(days: seq<SessionDate>)
    requires AllDates(days) && Increasing(days)
    ensures Partitions(Greedy(days), days)
  {
    hide IsDate; hide DayNumber; hide Span; hide FirstLen; hide Fits; hide Partitions; hide AllDates; hide Increasing;
    if days == [] {
      NothingPartitions();
    } else {
      var k := FirstLen(days, 1);
      FirstOfDates(days);
      FirstLenIsMaximal(days, 1);
      TailKeepsOrder(days, k);
      GreedyPartitions(days[k..]);
      PrefixFits(days, k);
      ConsPartitions(days[..k], Greedy(days[k..]), days[k..]);
      assert days == days[..k] + days[k..];
    }
  }

  lemma NothingPartitions()
    ensures Partitions([], [])
  {}

  lemma FirstOfDates(days: seq<SessionDate>)
    requires days != [] && AllDates(days)
    ensures Span(days[0], days[0]) <= MAX_CHUNK_CALENDAR_DAYS
  {
    SpanOfOne(days[0]);
  }

  lemma PrefixFits(days: seq<SessionDate>, k: nat)
    requires AllDates(days) && 1 <= k <= |days| && Span(days[0], days[k - 1]) <= MAX_CHUNK_CALENDAR_DAYS
    ensures Fits(days[..k])
  {
    hide Span; hide IsDate;
  }

  lemma SpanOfOne(d: SessionDate)
    requires IsDate(d)
    ensures Span(d, d) == 1
  {}

  lemma ConsPartitions(c: seq<SessionDate>, chunks: seq<seq<SessionDate>>, days: seq<SessionDate>)
    requires Fits(c) && Partitions(chunks, days)
    ensures Partitions([c] + chunks, c + days)
  {
    hide Fits;
    assert ([c] + chunks)[1..] == chunks;
  }

  lemma TailKeepsOrder(days: seq<SessionDate>, k: nat)
    requires AllDates(days) && Increasing(days) && k <= |days|
    ensures AllDates(days[k..]) && Increasing(days[k..])
  {
    hide IsDate;
    var s := days[k..];
    forall i | 0 <= i < |s| ensures IsDate(s[i]) { assert s[i] == days[k + i]; }
    forall i, j | 0 <= i < j < |s| ensures s[i] < s[j] { assert s[i] == days[k + i] && s[j] == days[k + j]; }
  }

  /** Dropping leading days never needs more chunks. */
  lemma {:induction false} SuffixNeedsNoMore(days: seq<SessionDate>, k: nat)
    requires AllDates(days) && Increasing(days) && k <= |days|
    ensures AllDates(days[k..]) && |Greedy(days[k..])| <= |Greedy(days)|
    decreases |days|
  {
    hide IsDate; hide Span; hide Greedy; hide FirstLen; hide Increasing;
    TailKeepsOrder(days, k);
    if k == 0 {
      assert days[0..] == days;
    } else if k == |days| {
      assert days[k..] == [];
      GreedyOfNothing();
    } else {
      var g := FirstLen(days, 1);
      GreedyCut(days, g);
      TailKeepsOrder(days, g);
      if k >= g {
        assert days[k..] == days[g..][k - g..];
        SuffixNeedsNoMore(days[g..], k - g);
      } else {
        var s := days[k..];
        var h := FirstLen(s, 1);
        FirstLenReaches(days, k);
        GreedyCut(s, h);
        assert s[h..] == days[g..][k + h - g..];
        SuffixNeedsNoMore(days[g..], k + h - g);
      }
    }
  }

  /** A chunk that starts later ends no earlier. */
  lemma FirstLenReaches(days: seq<SessionDate>, k: nat)
    requires days != [] && AllDates(days) && Increasing(days) && 0 < k < FirstLen(days, 1)
    ensures k + FirstLen(days[k..], 1) >= FirstLen(days, 1)
  {
    hide IsDate; hide Span; hide FirstLen; hide Increasing;
    var g, s := FirstLen(days, 1), days[k..];
    var h := FirstLen(s, 1);
    TailKeepsOrder(days, k);
    SpanOfOne(days[0]);
    SpanOfOne(s[0]);
    FirstLenIsMaximal(days, 1);
    FirstLenIsMaximal(s, 1);
    if k + h < g {
      assert s[0] == days[k] && s[h] == days[k + h];
      EarlierIsLess(days, 0, k);
      EarlierIsLess(days, k, k + h);
      EarlierIsLess(days, k + h, g - 1);
      SpanGrows(days[0], days[k], days[k + h]);
      SpanGrows(days[0], days[k + h], days[g - 1]);
    }
  }

  lemma EarlierIsLess(days: seq<SessionDate>, i: nat, j: nat)
    requires Increasing(days) && i <= j < |days|
    ensures days[i] <= days[j]
  {}

  /** No partition into runs that fit uses fewer requests than the greedy cut. */
  lemma {:induction false} GreedyIsShortest(days: seq<SessionDate>, chunks: seq<seq<SessionDate>>)
    requires AllDates(days) && Increasing(days) && Partitions(chunks, days)
    ensures |Greedy(days)| <= |chunks|
    decreases |chunks|
  {
    hide IsDate; hide Span; hide Greedy; hide FirstLen; hide Increasing;
    if chunks == [] {
      GreedyOfNothing();
    } else {
      var c := chunks[0];
      assert Fits(c);
      var rest := days[|c|..];
      assert days == c + Concat(chunks[1..]) && rest == Concat(chunks[1..]);
      TailKeepsOrder(days, |c|);
      GreedyIsShortest(rest, chunks[1..]);
      var g := FirstLen(days, 1);
      FirstChunkIsLongest(days, |c|);
      GreedyCut(days, g);
      assert days[g..] == rest[g - |c|..];
      SuffixNeedsNoMore(rest, g - |c|);
    }
  }

  lemma FirstChunkIsLongest(days: seq<SessionDate>, k: nat)
    requires AllDates(days) && Increasing(days) && 1 <= k <= |days|
    requires Span(days[0], days[k - 1]) <= MAX_CHUNK_CALENDAR_DAYS
    ensures k <= FirstLen(days, 1)
  {
    hide IsDate; hide DayNumber;
    var g := FirstLen(days, 1);
    SpanOfOne(days[0]);
    FirstLenIsMaximal(days, 1);
    if g < k { SpanGrows(days[0], days[g], days[k - 1]); }
  }
}
