/** Sessions of bars in an ordered key-value store: point writes and reads, and a range scan. */
module BarStore {
  import opened Domain
  import opened SessionCalendar
  import opened SessionKeys
  import opened Packing

  datatype Entry = Entry(key: string, value: seq<Byte>)

  /** Keys strictly ascending in byte order. */
  ghost predicate Sorted(db: seq<Entry>) {
    forall i, j :: 0 <= i < j < |db| ==> Less(db[i].key, db[j].key)
  }

  ghost predicate Has(db: seq<Entry>, from: nat, key: string) {
    exists j :: from <= j < |db| && db[j].key == key
  }

  /** The value stored under a key. */
  function Lookup(db: seq<Entry>, key: string): Option<seq<Byte>> {
    if db == [] then None
    else if db[0].key == key then Some(db[0].value)
    else Lookup(db[1..], key)
  }

  /** Index of the first entry whose key is not below start. */
  function Seek(db: seq<Entry>, start: string): (i: nat)
    ensures i <= |db|
  {
    if db == [] || !Less(db[0].key, start) then 0 else 1 + Seek(db[1..], start)
  }

  /** Write one entry, replacing the one with the same key. */
  function Put(db: seq<Entry>, key: string, value: seq<Byte>): seq<Entry> {
    var i := Seek(db, key);
    var rest := if i < |db| && db[i].key == key then db[i + 1..] else db[i..];
    db[..i] + [Entry(key, value)] + rest
  }

  // ---------------------------------------------------------------- writes and reads

  lemma {:induction false} SeekSplits(db: seq<Entry>, start: string)
    requires Sorted(db)
    ensures forall j :: 0 <= j < Seek(db, start) ==> Less(db[j].key, start)
    ensures forall j :: Seek(db, start) <= j < |db| ==> !Less(db[j].key, start)
  {
    hide Less;
    if db != [] && Less(db[0].key, start) {
      assert Sorted(db[1..]);
      SeekSplits(db[1..], start);
    } else {
      forall j | 0 <= j < |db| ensures !Less(db[j].key, start) {
        if Less(db[j].key, start) && j > 0 { LessTransitive(db[0].key, db[j].key, start); }
      }
    }
  }

  lemma {:induction false} LookupIs(db: seq<Entry>, key: string)
    requires Sorted(db)
    ensures forall j :: 0 <= j < |db| && db[j].key == key ==> Lookup(db, key) == Some(db[j].value)
    ensures Lookup(db, key).None? <==> !Has(db, 0, key)
  {
    hide Less;
    if db != [] {
      assert Sorted(db[1..]);
      LookupIs(db[1..], key);
      forall j | 0 <= j < |db| && db[j].key == key ensures Lookup(db, key) == Some(db[j].value) {
        if j > 0 { LessTotal(db[0].key, db[j].key); assert db[1..][j - 1] == db[j]; }
      }
      if Has(db[1..], 0, key) {
        var j :| 0 <= j < |db[1..]| && db[1..][j].key == key;
        assert db[j + 1].key == key;
      }
    }
  }

  lemma PutSorted(db: seq<Entry>, key: string, value: seq<Byte>)
    requires Sorted(db)
    ensures Sorted(Put(db, key, value))
    ensures forall k :: Has(Put(db, key, value), 0, k) <==> k == key || Has(db, 0, k)
    ensures forall e :: e in Put(db, key, value) ==> e == Entry(key, value) || e in db
    ensures forall e :: e in db && e.key != key ==> e in Put(db, key, value)
    ensures Entry(key, value) in Put(db, key, value)
  {
    hide Less;
    SeekSplits(db, key);
    var i := Seek(db, key);
    var skip := if i < |db| && db[i].key == key then 1 else 0;
    var more := Put(db, key, value);
    forall j | i + skip <= j < |db| ensures Less(key, db[j].key) {
      LessTotal(key, db[j].key);
      if skip == 1 { assert Less(db[i].key, db[j].key); }
      else if i < j { LessTotal(key, db[i].key); LessTransitive(key, db[i].key, db[j].key); }
    }
    InsertParts(db[..i], Entry(key, value), db[i + skip..]);
    InsertSorted(db, i, skip, key, value, more);
    PutMembers(db, i, skip, key, value, more);
  }

  lemma InsertParts(low: seq<Entry>, e: Entry, high: seq<Entry>)
    ensures var more := low + [e] + high;
      more[..|low|] == low && more[|low|] == e && more[|low| + 1..] == high
  {}

  lemma InsertSorted(db: seq<Entry>, i: nat, skip: nat, key: string, value: seq<Byte>, more: seq<Entry>)
    requires Sorted(db) && i + skip <= |db| && |more| == |db| + 1 - skip && skip <= 1
    requires forall j :: 0 <= j < i ==> Less(db[j].key, key)
    requires forall j :: i + skip <= j < |db| ==> Less(key, db[j].key)
    requires more[..i] == db[..i] && more[i] == Entry(key, value) && more[i + 1..] == db[i + skip..]
    ensures Sorted(more)
  {
    hide Less;
    forall a, b | 0 <= a < b < |more| ensures Less(more[a].key, more[b].key) {
      if a < i { assert more[a] == more[..i][a] == db[a]; }
      if b < i { assert more[b] == more[..i][b] == db[b]; }
      if a > i { assert more[a] == more[i + 1..][a - i - 1] == db[i + skip..][a - i - 1] == db[a - 1 + skip]; }
      if b > i { assert more[b] == more[i + 1..][b - i - 1] == db[i + skip..][b - i - 1] == db[b - 1 + skip]; }
      if a < i < b { LessTransitive(db[a].key, key, db[b - 1 + skip].key); }
    }
  }

  lemma PutMembers(db: seq<Entry>, i: nat, skip: nat, key: string, value: seq<Byte>, more: seq<Entry>)
    requires i + skip <= |db| && skip <= 1 && (skip == 1 ==> db[i].key == key)
    requires more == db[..i] + [Entry(key, value)] + db[i + skip..]
    ensures forall k :: Has(more, 0, k) <==> k == key || Has(db, 0, k)
    ensures forall e :: e in more ==> e == Entry(key, value) || e in db
    ensures forall e :: e in db && e.key != key ==> e in more
    ensures Entry(key, value) in more
  {
    assert more[i] == Entry(key, value);
    forall j | 0 <= j < |db| && db[j].key != key ensures db[j] in more {
      if j < i { assert more[j] == db[j]; } else { assert more[j + 1 - skip] == db[j]; }
    }
    forall k ensures Has(more, 0, k) <==> k == key || Has(db, 0, k) {
      if Has(db, 0, k) && k != key { var j :| 0 <= j < |db| && db[j].key == k; assert db[j] in more; }
      if Has(more, 0, k) && k != key {
        var j :| 0 <= j < |more| && more[j].key == k;
        assert more[j] in db;
      }
    }
  }

  /** put_session writes such keys only. */
  lemma PutCanonical(db: seq<Entry>, ticker: string, r: Resolution, date: SessionDate, value: seq<Byte>)
    requires Sorted(db) && Canonical(db) && Writable(date)
    ensures Canonical(Put(db, SessionKey(ticker, r, date), value))
  {
    hide Less; hide SessionKey; hide Put;
    PutSorted(db, SessionKey(ticker, r, date), value);
    var more := Put(db, SessionKey(ticker, r, date), value);
    forall i | 0 <= i < |more| ensures MadeKey(more[i].key) {
      assert more[i] in more;
      if more[i] in db { var j :| 0 <= j < |db| && db[j] == more[i]; }
    }
  }

  /** Reading after writing: the written key gives the written value, every other key is untouched. */
  lemma LookupPut(db: seq<Entry>, key: string, value: seq<Byte>, other: string)
    requires Sorted(db)
    ensures Lookup(Put(db, key, value), other) == if other == key then Some(value) else Lookup(db, other)
  {
    hide Less; hide Put; hide Lookup;
    var more := Put(db, key, value);
    PutSorted(db, key, value);
    LookupIs(db, other);
    LookupIs(more, other);
    if other == key {
      var j :| 0 <= j < |more| && more[j] == Entry(key, value);
    } else if Has(db, 0, other) {
      var j :| 0 <= j < |db| && db[j].key == other;
      assert db[j] in more;
    }
  }

  // ---------------------------------------------------------------- the range scan

  /** Walk the entries from index i while they carry the prefix and do not pass the end. */
  function Listed(db: seq<Entry>, i: nat, prefix: string, end: string): Result<seq<SessionDate>>
    requires i <= |db|
    decreases |db| - i
  {
    if i == |db| || !(prefix <= db[i].key) || (end != "" && Less(end, db[i].key)) then Ok([])
    else
      AfterBarBound(db[i].key);
      var at := AfterBar(db[i].key);
      if at.None? || at.value >= |db[i].key| then Listed(db, i + 1, prefix, end)
      else match FromIso(db[i].key[at.value..])
        case Bad => Err("bad session date")
        case Date(d) =>
          var rest := Listed(db, i + 1, prefix, end);
          if rest.Err? then rest else Ok([d] + rest.value)
  }

  function Bound(ticker: string, r: Resolution, d: SessionDate, open: string): string
    requires d < 100_000_000
  {
    if d > 0 then SessionKey(ticker, r, d) else open
  }

  function List(db: seq<Entry>, ticker: string, r: Resolution, from: SessionDate,
                to: SessionDate): Result<seq<SessionDate>>
    requires from < 100_000_000 && to < 100_000_000
  {
    var prefix := Prefix(ticker, r);
    Listed(db, Seek(db, Bound(ticker, r, from, prefix)), prefix, Bound(ticker, r, to, ""))
  }

  /** Every key was made by put_session, for any ticker and any date of at most four year digits. */
  ghost predicate Canonical(db: seq<Entry>) {
    forall i :: 0 <= i < |db| ==> MadeKey(db[i].key)
  }

  ghost predicate MadeKey(key: string) {
    exists t: string, r: Resolution, d: SessionDate :: Writable(d) && key == SessionKey(t, r, d)
  }

  /** The key of a date of (t, r) that can be parsed back. */
  ghost predicate ProperKey(key: string, t: string, r: Resolution) {
    exists d: SessionDate :: Writable(d) && Plausible(d) && key == SessionKey(t, r, d)
  }

  /** The key carries the prefix of (t, r) and lies within the bounds that are set. */
  predicate InBounds(key: string, t: string, r: Resolution, from: SessionDate, to: SessionDate)
    requires from < 100_000_000 && to < 100_000_000
  {
    && Prefix(t, r) <= key
    && (from > 0 ==> !Less(key, SessionKey(t, r, from)))
    && (to > 0 ==> !Less(SessionKey(t, r, to), key))
  }

  lemma KeyOrder(t: string, r: Resolution, a: SessionDate, b: SessionDate)
    requires Writable(a) && Writable(b)
    ensures Less(SessionKey(t, r, a), SessionKey(t, r, b)) <==> a < b
    ensures SessionKey(t, r, a) == SessionKey(t, r, b) <==> a == b
    ensures Prefix(t, r) <= SessionKey(t, r, a)
  {
    hide Iso; hide Prefix; hide Less;
    LessPrefix(Prefix(t, r), Iso(a), Iso(b));
    IsoOrder(a, b);
    assert SessionKey(t, r, a)[|Prefix(t, r)|..] == Iso(a) && SessionKey(t, r, b)[|Prefix(t, r)|..] == Iso(b);
  }

  /** d is a stored date of (t, r), at index i or later, that does not pass the end. */
  ghost predicate Wanted(db: seq<Entry>, i: nat, t: string, r: Resolution, to: SessionDate, d: SessionDate) {
    Writable(d) && (to > 0 ==> d <= to) && Has(db, i, SessionKey(t, r, d))
  }

  lemma HasNext(db: seq<Entry>, i: nat, key: string)
    requires i < |db|
    ensures Has(db, i, key) <==> db[i].key == key || Has(db, i + 1, key)
  {
    if Has(db, i, key) && db[i].key != key {
      var j :| i <= j < |db| && db[j].key == key;
      assert i + 1 <= j;
    }
  }

  /** Once a key misses the prefix or passes the end, so do all later ones. */
  lemma NothingLater(db: seq<Entry>, i: nat, j: nat, p: string, end: string)
    requires Sorted(db) && i <= j < |db| && !Less(db[i].key, p)
    requires !(p <= db[i].key) || (end != "" && Less(end, db[i].key))
    ensures !(p <= db[j].key) || (end != "" && Less(end, db[j].key))
  {
    hide Less;
    if i < j {
      if p <= db[j].key { PrefixInterval(p, db[i].key, db[j].key); }
      if Less(end, db[i].key) { LessTransitive(end, db[i].key, db[j].key); }
    }
  }

  lemma NothingWantedLater(db: seq<Entry>, i: nat, t: string, r: Resolution, to: SessionDate, d: SessionDate)
    requires Sorted(db) && i < |db| && to < 100_000_000 && !Less(db[i].key, Prefix(t, r))
    requires !(Prefix(t, r) <= db[i].key) || (to > 0 && Less(SessionKey(t, r, to), db[i].key))
    ensures !Wanted(db, i, t, r, to, d)
  {
    hide Less; hide Iso; hide Prefix; hide SessionKey;
    EndIsKey(t, r, to);
    if Wanted(db, i, t, r, to, d) {
      var j :| i <= j < |db| && db[j].key == SessionKey(t, r, d);
      KeyOrder(t, r, d, if to > 0 then to else d);
      LessTotal(SessionKey(t, r, if to > 0 then to else d), SessionKey(t, r, d));
      NothingLater(db, i, j, Prefix(t, r), Bound(t, r, to, ""));
    }
  }

  /** From position i on, the scan is exact if every key it passes is a proper one of (t, r). */
  lemma {:induction false} ListedIsExact(db: seq<Entry>, i: nat, t: string, r: Resolution, to: SessionDate)
    requires Sorted(db) && i <= |db| && to < 100_000_000
    requires i < |db| ==> !Less(db[i].key, Prefix(t, r))
    requires forall j :: i <= j < |db| && InBounds(db[j].key, t, r, 0, to) ==> ProperKey(db[j].key, t, r)
    ensures var l := Listed(db, i, Prefix(t, r), Bound(t, r, to, ""));
      l.Ok? && Increasing(l.value) && forall d :: d in l.value <==> Wanted(db, i, t, r, to, d)
    decreases |db| - i
  {
    hide Less; hide Iso; hide Prefix; hide SessionKey; hide Plausible; hide Wanted; hide AfterBar; hide FromIso;
    EndIsKey(t, r, to);
    var end := Bound(t, r, to, "");
    if i == |db| {
      forall d ensures !Wanted(db, i, t, r, to, d) { NothingWanted(db, t, r, to, d); }
    } else if !(Prefix(t, r) <= db[i].key) || (end != "" && Less(end, db[i].key)) {
      forall d ensures !Wanted(db, i, t, r, to, d) { NothingWantedLater(db, i, t, r, to, d); }
    } else {
      var x: SessionDate :| Writable(x) && Plausible(x) && db[i].key == SessionKey(t, r, x);
      KeyCarriesDate(t, r, x);
      IsoRoundTripIff(x);
      if i + 1 < |db| { NextNotBelow(db, i, Prefix(t, r)); }
      ListedIsExact(db, i + 1, t, r, to);
      var rest := Listed(db, i + 1, Prefix(t, r), end).value;
      forall d ensures Wanted(db, i, t, r, to, d) <==> d == x || Wanted(db, i + 1, t, r, to, d) {
        WantedNext(db, i, t, r, to, x, d);
      }
      forall d | d in rest ensures x < d { LaterIsGreater(db, i, t, r, to, x, d); }
      ConsIncreasing(x, rest);
    }
  }

  lemma EndIsKey(t: string, r: Resolution, to: SessionDate)
    requires to < 100_000_000
    ensures to > 0 ==> Bound(t, r, to, "") == SessionKey(t, r, to) != ""
    ensures to <= 0 ==> Bound(t, r, to, "") == ""
  {
    hide Iso;
  }

  lemma NothingWanted(db: seq<Entry>, t: string, r: Resolution, to: SessionDate, d: SessionDate)
    ensures !Wanted(db, |db|, t, r, to, d)
  {}

  lemma NextNotBelow(db: seq<Entry>, i: nat, p: string)
    requires Sorted(db) && i + 1 < |db| && !Less(db[i].key, p)
    ensures !Less(db[i + 1].key, p)
  {
    hide Less;
    assert Less(db[i].key, db[i + 1].key);
    if Less(db[i + 1].key, p) { LessTransitive(db[i].key, db[i + 1].key, p); }
  }

  lemma WantedNext(db: seq<Entry>, i: nat, t: string, r: Resolution, to: SessionDate, x: SessionDate, d: SessionDate)
    requires i < |db| && Writable(x) && db[i].key == SessionKey(t, r, x) && to < 100_000_000
    requires to > 0 ==> !Less(SessionKey(t, r, to), db[i].key)
    ensures Wanted(db, i, t, r, to, d) <==> d == x || Wanted(db, i + 1, t, r, to, d)
  {
    hide Less; hide Iso; hide SessionKey; hide Has;
    if Writable(d) { HasNext(db, i, SessionKey(t, r, d)); KeyOrder(t, r, d, x); }
    HasNext(db, i, SessionKey(t, r, x));
    if to > 0 { KeyOrder(t, r, to, x); }
  }

  lemma LaterIsGreater(db: seq<Entry>, i: nat, t: string, r: Resolution, to: SessionDate, x: SessionDate,
                       d: SessionDate)
    requires Sorted(db) && i < |db| && Writable(x) && db[i].key == SessionKey(t, r, x) && Wanted(db, i + 1, t, r, to, d)
    ensures x < d
  {
    hide Less; hide Iso; hide SessionKey;
    var j :| i + 1 <= j < |db| && db[j].key == SessionKey(t, r, d);
    KeyOrder(t, r, x, d);
  }

  /** Dates in strictly ascending order, exactly the stored ones of (t, r) within the bounds that are set. */
  ghost predicate ExactList(db: seq<Entry>, t: string, r: Resolution, from: SessionDate, to: SessionDate,
                            dates: seq<SessionDate>)
  {
    && Increasing(dates)
    && forall d :: d in dates <==>
         Writable(d) && (from > 0 ==> from <= d) && (to > 0 ==> d <= to) && Has(db, 0, SessionKey(t, r, d))
  }

  lemma SeekNotBelowPrefix(db: seq<Entry>, t: string, r: Resolution, from: SessionDate)
    requires Sorted(db) && from < 100_000_000
    ensures var i := Seek(db, Bound(t, r, from, Prefix(t, r))); i < |db| ==> !Less(db[i].key, Prefix(t, r))
  {
    hide Less; hide Iso; hide SessionKey; hide Prefix;
    var start := Bound(t, r, from, Prefix(t, r));
    SeekSplits(db, start);
    var i := Seek(db, start);
    StartHasPrefix(t, r, from);
    if i < |db| && Less(db[i].key, Prefix(t, r)) {
      PrefixLeast(Prefix(t, r), start);
      LessTotal(start, Prefix(t, r));
      if start != Prefix(t, r) { LessTransitive(db[i].key, Prefix(t, r), start); }
    }
  }

  /** The scan is exact if every key in the bounds is a proper one of (t, r). */
  lemma ProperIsExact(db: seq<Entry>, t: string, r: Resolution, from: SessionDate, to: SessionDate)
    requires Sorted(db) && from < 100_000_000 && to < 100_000_000
    requires forall j :: 0 <= j < |db| && InBounds(db[j].key, t, r, from, to) ==> ProperKey(db[j].key, t, r)
    ensures var l := List(db, t, r, from, to); l.Ok? && ExactList(db, t, r, from, to, l.value)
  {
    hide Less; hide Iso; hide SessionKey; hide Prefix; hide Listed; hide ProperKey;
    var start := Bound(t, r, from, Prefix(t, r));
    SeekSplits(db, start);
    var i := Seek(db, start);
    SeekNotBelowPrefix(db, t, r, from);
    ListedIsExact(db, i, t, r, to);
    forall d | Writable(d)
      ensures Has(db, i, SessionKey(t, r, d)) <==> (from > 0 ==> from <= d) && Has(db, 0, SessionKey(t, r, d))
    {
      SeekCuts(db, t, r, from, d);
    }
  }

  /** The date a key carries after its last bar sign. */
  function Carried(key: string): ParsedDate {
    AfterBarBound(key);
    var at := AfterBar(key);
    if at.None? || at.value >= |key| then Bad else FromIso(key[at.value..])
  }

  lemma MadeCarries(t: string, r: Resolution, d: SessionDate)
    requires Writable(d)
    ensures var key := SessionKey(t, r, d);
      && AfterBar(key).Some? && AfterBar(key).value < |key|
      && Carried(key) == (if Plausible(d) then Date(d) else Bad)
  {
    hide Iso; hide AfterBar; hide FromIso; hide SessionKey;
    KeyCarriesDate(t, r, d);
    IsoRoundTripIff(d);
  }

  /** What a successful scan from i returns: the date of each key it passes, up to the key that ends it. */
  lemma {:induction false} ListedCarries(db: seq<Entry>, i: nat, p: string, end: string)
    requires Canonical(db) && i <= |db| && Listed(db, i, p, end).Ok?
    ensures var out := Listed(db, i, p, end).value;
      && i + |out| <= |db|
      && (forall k :: 0 <= k < |out| ==> Carried(db[i + k].key) == Date(out[k]))
      && (i + |out| < |db| ==>
            !(p <= db[i + |out|].key) || (end != "" && Less(end, db[i + |out|].key)))
    decreases |db| - i
  {
    hide Less; hide AfterBar; hide FromIso; hide SessionKey; hide Plausible;
    if i < |db| && p <= db[i].key && !(end != "" && Less(end, db[i].key)) {
      var t: string, r: Resolution, d: SessionDate :| Writable(d) && db[i].key == SessionKey(t, r, d);
      MadeCarries(t, r, d);
      ListedCarries(db, i + 1, p, end);
      var out, rest := Listed(db, i, p, end).value, Listed(db, i + 1, p, end).value;
      assert out == [d] + rest;
      forall k | 0 <= k < |out| ensures Carried(db[i + k].key) == Date(out[k]) {
        if k > 0 { assert out[k] == rest[k - 1] && db[i + k] == db[i + 1 + (k - 1)]; }
      }
    }
  }

  /** A key in the bounds is passed by the scan. */
  lemma Scanned(db: seq<Entry>, t: string, r: Resolution, from: SessionDate, to: SessionDate, j: nat)
    requires Sorted(db) && Canonical(db) && from < 100_000_000 && to < 100_000_000
    requires j < |db| && InBounds(db[j].key, t, r, from, to) && List(db, t, r, from, to).Ok?
    ensures var out := List(db, t, r, from, to).value;
      var i := Seek(db, Bound(t, r, from, Prefix(t, r)));
      i <= j < i + |out| && Carried(db[j].key) == Date(out[j - i])
  {
    hide Less; hide Iso; hide SessionKey; hide Prefix; hide Carried; hide Listed; hide Canonical;
    var p, end := Prefix(t, r), Bound(t, r, to, "");
    var start := Bound(t, r, from, p);
    var i := Seek(db, start);
    var out := Listed(db, i, p, end).value;
    EndIsKey(t, r, to);
    SeekSplits(db, start);
    PrefixLeast(p, db[j].key);
    SeekNotBelowPrefix(db, t, r, from);
    ListedCarries(db, i, p, end);
    var m := i + |out|;
    if m <= j {
      if i < m { NotBelowLater(db, i, m, p); }
      NothingLater(db, m, j, p, end);
    }
  }

  lemma {:induction false} NotBelowLater(db: seq<Entry>, i: nat, m: nat, p: string)
    requires Sorted(db) && i < m < |db| && !Less(db[i].key, p)
    ensures !Less(db[m].key, p)
  {
    hide Less;
    if Less(db[m].key, p) { LessTransitive(db[i].key, db[m].key, p); }
  }

  /** If the scan is exact, every key in the bounds is a proper one: an alias would be reported as a date
      that is not stored, or a second time. */
  lemma ExactIsProper(db: seq<Entry>, t: string, r: Resolution, from: SessionDate, to: SessionDate, j: nat)
    requires Sorted(db) && Canonical(db) && from < 100_000_000 && to < 100_000_000
    requires List(db, t, r, from, to).Ok? && ExactList(db, t, r, from, to, List(db, t, r, from, to).value)
    requires j < |db| && InBounds(db[j].key, t, r, from, to)
    ensures ProperKey(db[j].key, t, r)
  {
    hide Less; hide Iso; hide SessionKey; hide Prefix; hide Carried; hide List; hide Plausible; hide Seek;
    var out := List(db, t, r, from, to).value;
    var i := Seek(db, Bound(t, r, from, Prefix(t, r)));
    Scanned(db, t, r, from, to, j);
    var u: string, q: Resolution, x: SessionDate :| Writable(x) && db[j].key == SessionKey(u, q, x);
    MadeCarries(u, q, x);
    assert out[j - i] == x && x in out;
    var own :| 0 <= own < |db| && db[own].key == SessionKey(t, r, x);
    OwnInBounds(t, r, from, to, x);
    Scanned(db, t, r, from, to, own);
    MadeCarries(t, r, x);
    assert out[own - i] == x;
    assert own == j;
  }

  lemma OwnInBounds(t: string, r: Resolution, from: SessionDate, to: SessionDate, d: SessionDate)
    requires from < 100_000_000 && to < 100_000_000
    requires Writable(d) && (from > 0 ==> from <= d) && (to > 0 ==> d <= to)
    ensures InBounds(SessionKey(t, r, d), t, r, from, to)
  {
    hide Less; hide Iso; hide SessionKey; hide Prefix;
    KeyOrder(t, r, d, if from > 0 then from else d);
    KeyOrder(t, r, if to > 0 then to else d, d);
  }

  /** The range scan returns exactly the stored dates of the ticker and resolution in the range, ascending
      and without duplicates, if and only if no other key carries its prefix within the bounds and no
      stored date there is one that cannot be parsed. A bound that is not set is open. */
  lemma ListExactIff(db: seq<Entry>, t: string, r: Resolution, from: SessionDate, to: SessionDate)
    requires Sorted(db) && Canonical(db) && from < 100_000_000 && to < 100_000_000
    ensures var l := List(db, t, r, from, to);
      (l.Ok? && ExactList(db, t, r, from, to, l.value)) <==>
        (forall j :: 0 <= j < |db| && InBounds(db[j].key, t, r, from, to) ==> ProperKey(db[j].key, t, r))
  {
    hide ExactList; hide InBounds; hide ProperKey; hide Canonical; hide Sorted; hide List;
    var l := List(db, t, r, from, to);
    if l.Ok? && ExactList(db, t, r, from, to, l.value) {
      forall j | 0 <= j < |db| && InBounds(db[j].key, t, r, from, to) ensures ProperKey(db[j].key, t, r) {
        ExactIsProper(db, t, r, from, to, j);
      }
    }
    if forall j :: 0 <= j < |db| && InBounds(db[j].key, t, r, from, to) ==> ProperKey(db[j].key, t, r) {
      ProperIsExact(db, t, r, from, to);
    }
  }

  /** Keys of real tickers: no bar signs, and dates that can be parsed. */
  ghost predicate PlainKey(key: string) {
    exists t: string, r: Resolution, d: SessionDate ::
      Writable(d) && '|' !in t && Plausible(d) && key == SessionKey(t, r, d)
  }

  /** With tickers free of bar signs the scan is always exact. */
  lemma ListIsExact(db: seq<Entry>, t: string, r: Resolution, from: SessionDate, to: SessionDate)
    requires Sorted(db) && '|' !in t && from < 100_000_000 && to < 100_000_000
    requires forall i :: 0 <= i < |db| ==> PlainKey(db[i].key)
    ensures var l := List(db, t, r, from, to); l.Ok? && ExactList(db, t, r, from, to, l.value)
  {
    hide Less; hide ExactList; hide List; hide Plausible; hide Iso; hide SessionKey;
    forall j | 0 <= j < |db| && InBounds(db[j].key, t, r, from, to) ensures ProperKey(db[j].key, t, r) {
      PlainIsProper(db[j].key, t, r);
    }
    ProperIsExact(db, t, r, from, to);
  }

  lemma PlainIsProper(key: string, t: string, r: Resolution)
    requires PlainKey(key) && '|' !in t && Prefix(t, r) <= key
    ensures ProperKey(key, t, r)
  {
    hide Iso; hide Plausible;
    var u: string, q: Resolution, x: SessionDate :|
      Writable(x) && '|' !in u && Plausible(x) && key == SessionKey(u, q, x);
    PrefixTells(t, r, u, q, Iso(x));
  }

  lemma StartHasPrefix(t: string, r: Resolution, from: SessionDate)
    requires from < 100_000_000
    ensures Prefix(t, r) <= Bound(t, r, from, Prefix(t, r))
  {
    hide Iso; hide Prefix;
  }

  lemma SeekCuts(db: seq<Entry>, t: string, r: Resolution, from: SessionDate, d: SessionDate)
    requires Sorted(db) && from < 100_000_000 && Writable(d)
    ensures Has(db, Seek(db, Bound(t, r, from, Prefix(t, r))), SessionKey(t, r, d)) <==>
      (from > 0 ==> from <= d) && Has(db, 0, SessionKey(t, r, d))
  {
    hide Less; hide Iso; hide Prefix; hide SessionKey;
    var start := Bound(t, r, from, Prefix(t, r));
    SeekSplits(db, start);
    KeyOrder(t, r, d, if from > 0 then from else d);
    PrefixLeast(Prefix(t, r), SessionKey(t, r, d));
    var i := Seek(db, start);
    if Has(db, 0, SessionKey(t, r, d)) && (from > 0 ==> from <= d) {
      var j :| 0 <= j < |db| && db[j].key == SessionKey(t, r, d);
      assert j >= i;
    }
  }

  /** A bar sign in a ticker breaks the scan: a session of ticker A|1m is reported as one of ticker A. */
  lemma BarSignLeaks()
    ensures var db := [Entry(SessionKey("A|1m", OneMin, 20240102), [])];
      && Sorted(db) && !Has(db, 0, SessionKey("A", OneMin, 20240102))
      && List(db, "A", OneMin, 0, 0) == Ok([20240102])
  {
    hide Iso; hide Less; hide FromIso; hide AfterBar;
    var d := 20240102;
    var key := SessionKey("A|1m", OneMin, d);
    var db := [Entry(key, [])];
    var p := Prefix("A", OneMin);
    assert p == "A|1m|" && Prefix("A|1m", OneMin) == "A|1m|1m|";
    assert |key| == 18 && |SessionKey("A", OneMin, d)| == 15;
    assert key[..5] == p && p <= key;
    PrefixLeast(p, key);
    assert Seek(db, p) == 0;
    KeyCarriesDate("A|1m", OneMin, d);
    IsoRoundTripIff(d);
    assert Listed(db, 1, p, "") == Ok([]);
    assert Listed(db, 0, p, "") == Ok([d] + []);
    assert db[0].key != SessionKey("A", OneMin, d);
    assert Sorted(db);
    assert !Has(db, 0, SessionKey("A", OneMin, 20240102));
    assert Bound("A", OneMin, 0, p) == p && Bound("A", OneMin, 0, "") == "";
    assert [d] + [] == [20240102];
    ScanIsList(db, "A", OneMin);
  }

  lemma ScanIsList(db: seq<Entry>, t: string, r: Resolution)
    ensures List(db, t, r, 0, 0) == Listed(db, Seek(db, Prefix(t, r)), Prefix(t, r), "")
  {}

  // ---------------------------------------------------------------- the store as an object

  class RocksBarStore {
    var isOpen: bool
    var db: seq<Entry>

    /** put_session is the only writer. */
    ghost predicate Valid()
      reads this
    {
      Sorted(db) && Canonical(db)
    }

    constructor ()
      ensures Valid() && !isOpen && db == []
    {
      isOpen, db := false, [];
    }

    method Open()
      modifies this`isOpen
      ensures isOpen
    {
      isOpen := true;
    }

    method Close()
      modifies this`isOpen
      ensures !isOpen
    {
      isOpen := false;
    }

    /** Position of the first key that is not below start, as an iterator seeks. */
    method SeekTo(start: string) returns (i: nat)
      ensures i == Seek(db, start)
    {
      hide Less;
      i := 0;
      assert db[0..] == db;
      while i < |db| && Less(db[i].key, start)
        invariant i <= |db| && Seek(db, start) == i + Seek(db[i..], start)
      {
        assert db[i..][1..] == db[i + 1..];
        i := i + 1;
      }
    }

    method PutSession(ticker: string, r: Resolution, date: SessionDate, records: seq<Record>)
      returns (e: Option<string>)
      requires Valid() && date < 100_000_000
      modifies this`db
      ensures Valid()
      ensures e == if !isOpen then Some("rocksdb is closed")
                   else if ticker == "" || date <= 0 then Some("put_session requires ticker and date") else None
      ensures db == if e.Some? then old(db) else Put(old(db), SessionKey(ticker, r, date), Pack(records))
    {
      hide Less; hide SessionKey; hide Pack; hide Seek; hide Canonical; hide Sorted;
      if !isOpen { return Some("rocksdb is closed"); }
      if ticker == "" || date <= 0 { return Some("put_session requires ticker and date"); }
      var key := SessionKey(ticker, r, date);
      var value := PackSessionBars(records);
      PutSorted(db, key, value);
      PutCanonical(db, ticker, r, date, value);
      var i := SeekTo(key);
      if i < |db| && db[i].key == key {
        db := db[..i] + [Entry(key, value)] + db[i + 1..];
      } else {
        db := db[..i] + [Entry(key, value)] + db[i..];
      }
      e := None;
    }

    method GetSession(ticker: string, r: Resolution, date: SessionDate, symbol: nat)
      returns (bars: Result<Option<seq<Unpacked>>>)
      requires Valid() && Writable(date)
      ensures !isOpen ==> bars == Err("rocksdb is closed")
      ensures isOpen ==> bars == match Lookup(db, SessionKey(ticker, r, date))
        case None => Ok(None)
        case Some(blob) =>
          match Unpack(blob)
          case Ok(records) => Ok(Some(Labelled(records, symbol, Code(r))))
          case Err(e) => Err(e)
    {
      hide Less; hide Iso; hide Unpack;
      if !isOpen { return Err("rocksdb is closed"); }
      var key := SessionKey(ticker, r, date);
      LookupIs(db, key);
      SeekSplits(db, key);
      var i := SeekTo(key);
      if i == |db| || db[i].key != key {
        MissingKey(db, key, i);
        return Ok(None);
      }
      var got := UnpackSessionBars(db[i].value, symbol, Code(r));
      bars := match got case Ok(v) => Ok(Some(v)) case Err(e) => Err(e);
    }

    method ListSessions(ticker: string, r: Resolution, from: SessionDate, to: SessionDate)
      returns (dates: Result<seq<SessionDate>>)
      requires Valid() && from < 100_000_000 && to < 100_000_000
      ensures dates == if !isOpen then Err("rocksdb is closed") else List(db, ticker, r, from, to)
    {
      hide Iso; hide Seek; hide Listed;
      if !isOpen { return Err("rocksdb is closed"); }
      var prefix := Prefix(ticker, r);
      var start := if from > 0 then SessionKey(ticker, r, from) else prefix;
      var end := if to > 0 then SessionKey(ticker, r, to) else "";
      var i := SeekTo(start);
      dates := Walk(i, prefix, end);
    }

    /** Advance the iterator from position start until a key ends the scan. */
    method Walk(start: nat, prefix: string, end: string) returns (dates: Result<seq<SessionDate>>)
      requires start <= |db|
      ensures dates == Listed(db, start, prefix, end)
    {
      hide Less; hide FromIso; hide AfterBar;
      var out: seq<SessionDate> := [];
      var i := start;
      AfterNothing(Listed(db, start, prefix, end));
      while i < |db|
        invariant i <= |db|
        invariant Listed(db, start, prefix, end) == AfterAll(out, Listed(db, i, prefix, end))
      {
        var key := db[i].key;
        if !(prefix <= key) || (end != "" && Less(end, key)) { break; }
        AfterBarBound(key);
        var at := AfterBar(key);
        if at.Some? && at.value < |key| {
          var date := FromIso(key[at.value..]);
          if date == Bad { return Err("bad session date"); }
          AfterMore(out, date.ymd, Listed(db, i + 1, prefix, end));
          out := out + [date.ymd];
        }
        i := i + 1;
      }
      assert out + [] == out;
      dates := Ok(out);
    }
  }

  lemma AfterNothing(r: Result<seq<SessionDate>>)
    ensures AfterAll([], r) == r
  {
    if r.Ok? { assert [] + r.value == r.value; }
  }

  /** A list continued by the outcome of the rest of the scan. */
  function AfterAll(out: seq<SessionDate>, rest: Result<seq<SessionDate>>): Result<seq<SessionDate>> {
    if rest.Err? then rest else Ok(out + rest.value)
  }

  lemma AfterMore(out: seq<SessionDate>, d: SessionDate, rest: Result<seq<SessionDate>>)
    ensures AfterAll(out, if rest.Err? then rest else Ok([d] + rest.value)) == AfterAll(out + [d], rest)
  {
    if rest.Ok? { assert out + ([d] + rest.value) == out + [d] + rest.value; }
  }

  lemma MissingKey(db: seq<Entry>, key: string, i: nat)
    requires Sorted(db) && i == Seek(db, key) && (i == |db| || db[i].key != key)
    ensures !Has(db, 0, key)
  {
    hide Less;
    SeekSplits(db, key);
    LessTotal(key, key);
    forall j | 0 <= j < |db| ensures db[j].key != key {
      if j > i { LessTotal(db[i].key, key); }
    }
  }

  /** Storing and reading a session gives the bars back, with the caller's symbol. */
  lemma SessionRoundTrip(db: seq<Entry>, ticker: string, r: Resolution, date: SessionDate, records: seq<Record>)
    requires Sorted(db) && Writable(date) && |records| < TWO_32
    ensures var blob := Lookup(Put(db, SessionKey(ticker, r, date), Pack(records)), SessionKey(ticker, r, date));
      blob.Some? && Unpack(blob.value) == Ok(records)
  {
    hide Less; hide Iso; hide Put; hide Pack; hide Unpack; hide Lookup;
    LookupPut(db, SessionKey(ticker, r, date), Pack(records), SessionKey(ticker, r, date));
    UnpackPackIff(records);
  }
}
