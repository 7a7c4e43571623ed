/** Keys of stored sessions, ticker|resolution|YYYY-MM-DD, and how their byte order follows the dates. */
module SessionKeys {
  import opened Domain
  import opened SessionCalendar

  datatype ParsedDate = Date(ymd: SessionDate) | Bad

  // ---------------------------------------------------------------- byte order

  /** Lexicographic order of bytes. */
  predicate Less(a: string, b: string) {
    if b == "" then false
    else if a == "" then true
    else a[0] < b[0] || (a[0] == b[0] && Less(a[1..], b[1..]))
  }

  lemma {:induction false} LessTotal(a: string, b: string)
    ensures Less(a, b) || a == b || Less(b, a)
    ensures !(Less(a, b) && Less(b, a)) && (a == b ==> !Less(a, b))
  {
    if a != "" && b != "" {
      LessTotal(a[1..], b[1..]);
      if a[0] == b[0] && a[1..] == b[1..] { assert a == [a[0]] + a[1..] && b == [b[0]] + b[1..]; }
    }
  }

  lemma {:induction false} LessTransitive(a: string, b: string, c: string)
    requires Less(a, b) && Less(b, c)
    ensures Less(a, c)
  {
    if a != "" && a[0] == b[0] == c[0] { LessTransitive(a[1..], b[1..], c[1..]); }
  }

  /** A common prefix does not change the order. */
  lemma {:induction false} LessPrefix(p: string, a: string, b: string)
    ensures Less(p + a, p + b) <==> Less(a, b)
  {
    if p == "" {
      assert p + a == a && p + b == b;
    } else {
      LessPrefix(p[1..], a, b);
      assert (p + a)[1..] == p[1..] + a && (p + b)[1..] == p[1..] + b;
    }
  }

  /** With first parts of equal length, the first difference decides. */
  lemma {:induction false} LessConcat(a: string, x: string, b: string, y: string)
    requires |a| == |b|
    ensures Less(a + x, b + y) <==> Less(a, b) || (a == b && Less(x, y))
  {
    if a == "" {
      assert a + x == x && b + y == y;
    } else {
      LessConcat(a[1..], x, b[1..], y);
      assert (a + x)[1..] == a[1..] + x && (b + y)[1..] == b[1..] + y;
      assert a == b <==> a[0] == b[0] && a[1..] == b[1..] by { assert a == [a[0]] + a[1..] && b == [b[0]] + b[1..]; }
    }
  }

  /** Strings with a given prefix form an interval. */
  lemma {:induction false} PrefixInterval(p: string, a: string, b: string)
    requires !Less(a, p) && Less(a, b) && p <= b
    ensures p <= a
  {
    if p != "" {
      assert a != "" && a[0] == p[0];
      PrefixInterval(p[1..], a[1..], b[1..]);
      assert p == [p[0]] + p[1..] && a == [a[0]] + a[1..];
    }
  }

  /** A string is never below its prefix. */
  lemma {:induction false} PrefixLeast(p: string, a: string)
    requires p <= a
    ensures !Less(a, p)
  {
    if p != "" { PrefixLeast(p[1..], a[1..]); }
  }

  // ---------------------------------------------------------------- dates as text

  /** n in k decimal digits, padded with zeros. */
  function Digits(n: nat, k: nat): (s: string)
    ensures |s| == k
  {
    if k == 0 then "" else Digits(n / 10, k - 1) + [Digit(n % 10)]
  }

  function Pow10(k: nat): (p: nat)
    ensures p > 0
  {
    if k == 0 then 1 else 10 * Pow10(k - 1)
  }

  lemma {:induction false} DigitsOrder(a: nat, b: nat, k: nat)
    requires a < Pow10(k) && b < Pow10(k)
    ensures Less(Digits(a, k), Digits(b, k)) <==> a < b
    ensures Digits(a, k) == Digits(b, k) <==> a == b
  {
    if k > 0 {
      DigitsOrder(a / 10, b / 10, k - 1);
      LessConcat(Digits(a / 10, k - 1), [Digit(a % 10)], Digits(b / 10, k - 1), [Digit(b % 10)]);
      LastDigits(Digits(a / 10, k - 1), a % 10, Digits(b / 10, k - 1), b % 10);
    }
  }

  lemma LastDigits(s: string, x: nat, t: string, y: nat)
    requires x < 10 && y < 10 && |s| == |t|
    ensures Less([Digit(x)], [Digit(y)]) <==> x < y
    ensures s + [Digit(x)] == t + [Digit(y)] <==> s == t && x == y
  {
    var a, b := s + [Digit(x)], t + [Digit(y)];
    assert a[..|s|] == s && b[..|t|] == t && a[|s|] == Digit(x) && b[|t|] == Digit(y);
  }

  /** Dates the four-digit-year text form can write. */
  predicate Writable(d: SessionDate) { 0 <= d < 100_000_000 }

  function Iso(d: SessionDate): (s: string)
    requires Writable(d)
    ensures |s| == 10
  {
    Digits(Year(d), 4) + "-" + Digits(Month(d), 2) + "-" + Digits(Day(d), 2)
  }

  function At(s: string, i: nat): int
    requires i < |s|
  {
    s[i] as int - '0' as int
  }

  /** Characters are not checked to be digits; only the resulting fields are bounded. */
  function FromIso(text: string): ParsedDate {
    if |text| != 10 || text[4] != '-' || text[7] != '-' then Bad
    else
      var y := At(text, 0) * 1000 + At(text, 1) * 100 + At(text, 2) * 10 + At(text, 3);
      var m := At(text, 5) * 10 + At(text, 6);
      var d := At(text, 8) * 10 + At(text, 9);
      if y < 1970 || m < 1 || m > 12 || d < 1 || d > 31 then Bad else Date(FromParts(y, m, d))
  }

  /** What FromIso accepts: a year from 1970 on, a month, a day of at most 31. */
  predicate Plausible(d: SessionDate) { Year(d) >= 1970 && 1 <= Month(d) <= 12 && 1 <= Day(d) <= 31 }

  lemma FieldsOf(d: SessionDate)
    requires Writable(d)
    ensures Year(d) < 10000 && Month(d) < 100 && Day(d) < 100 && FromParts(Year(d), Month(d), Day(d)) == d
  {}

  lemma TwoDigits(n: nat)
    requires n < 100
    ensures var s := Digits(n, 2); At(s, 0) * 10 + At(s, 1) == n
  {
    assert Digits(n / 10, 1) == Digits(n / 10 / 10, 0) + [Digit(n / 10 % 10)];
  }

  lemma FourDigits(n: nat)
    requires n < 10000
    ensures var s := Digits(n, 4); At(s, 0) * 1000 + At(s, 1) * 100 + At(s, 2) * 10 + At(s, 3) == n
  {
    var h := n / 100;
    var s, t := Digits(n, 4), Digits(h, 2);
    TwoDigits(h);
    assert Digits(n, 4) == Digits(n / 10, 3) + [Digit(n % 10)];
    assert Digits(n / 10, 3) == Digits(h, 2) + [Digit(n / 10 % 10)];
    assert s[0] == t[0] && s[1] == t[1] && s[2] == Digit(n / 10 % 10) && s[3] == Digit(n % 10);
  }

  lemma IsoParts(d: SessionDate)
    requires Writable(d)
    ensures var (s, y, m, x) := (Iso(d), Digits(Year(d), 4), Digits(Month(d), 2), Digits(Day(d), 2));
      && s[0] == y[0] && s[1] == y[1] && s[2] == y[2] && s[3] == y[3] && s[4] == '-'
      && s[5] == m[0] && s[6] == m[1] && s[7] == '-' && s[8] == x[0] && s[9] == x[1]
  {
    hide Digits;
  }

  /** Printing and parsing gives a date back exactly when its fields are plausible. */
  lemma IsoRoundTripIff(d: SessionDate)
    requires Writable(d)
    ensures FromIso(Iso(d)) == if Plausible(d) then Date(d) else Bad
  {
    hide Digits;
    FieldsOf(d);
    IsoParts(d);
    FourDigits(Year(d));
    TwoDigits(Month(d));
    TwoDigits(Day(d));
    hide Iso;
  }

  /** Year, month and day in four, two and two decimal digits, separated by hyphens. */
  lemma IsoIs(d: SessionDate)
    requires Writable(d)
    ensures var s := Iso(d);
      && At(s, 0) * 1000 + At(s, 1) * 100 + At(s, 2) * 10 + At(s, 3) == d / 10000
      && At(s, 5) * 10 + At(s, 6) == d / 100 % 100 && At(s, 8) * 10 + At(s, 9) == d % 100
      && s[4] == '-' && s[7] == '-'
  {
    hide Digits;
    FieldsOf(d);
    IsoParts(d);
    FourDigits(Year(d));
    TwoDigits(Month(d));
    TwoDigits(Day(d));
    hide Iso;
  }

  lemma Powers10()
    ensures Pow10(2) == 100 && Pow10(4) == 10000
  {
    assert Pow10(4) == 10 * (10 * Pow10(2));
  }

  /** The text of dates is ordered as the dates are. */
  lemma IsoOrder(a: SessionDate, b: SessionDate)
    requires Writable(a) && Writable(b)
    ensures Less(Iso(a), Iso(b)) <==> a < b
    ensures Iso(a) == Iso(b) <==> a == b
  {
    hide Less; hide Iso;
    IsoLess(a, b);
    IsoLess(b, a);
    LessTotal(Iso(a), Iso(b));
  }

  lemma IsoLess(a: SessionDate, b: SessionDate)
    requires Writable(a) && Writable(b)
    ensures Less(Iso(a), Iso(b)) <==> a < b
  {
    hide Less; hide Digits;
    FieldsOf(a); FieldsOf(b); Powers10();
    DigitsOrder(Year(a), Year(b), 4);
    DigitsOrder(Month(a), Month(b), 2);
    DigitsOrder(Day(a), Day(b), 2);
    var (ya, ma, da) := (Digits(Year(a), 4), Digits(Month(a), 2), Digits(Day(a), 2));
    var (yb, mb, db) := (Digits(Year(b), 4), Digits(Month(b), 2), Digits(Day(b), 2));
    assert Iso(a) == ya + ("-" + (ma + ("-" + da))) && Iso(b) == yb + ("-" + (mb + ("-" + db)));
    LessConcat(ya, "-" + (ma + ("-" + da)), yb, "-" + (mb + ("-" + db)));
    LessPrefix("-", ma + ("-" + da), mb + ("-" + db));
    LessConcat(ma, "-" + da, mb, "-" + db);
    LessPrefix("-", da, db);
  }

  // ---------------------------------------------------------------- keys

  datatype Resolution = OneMin | FiveMin | FifteenMin | ThirtyMin | OneHour | OneDay | OneWeek

  function Code(r: Resolution): string {
    match r
    case OneMin => "1m" case FiveMin => "5m" case FifteenMin => "15m" case ThirtyMin => "30m"
    case OneHour => "1h" case OneDay => "1d" case OneWeek => "1w"
  }

  function Prefix(ticker: string, r: Resolution): string { ticker + "|" + Code(r) + "|" }

  function SessionKey(ticker: string, r: Resolution, d: SessionDate): string
    requires Writable(d)
  {
    Prefix(ticker, r) + Iso(d)
  }

  /** Position just after the last bar sign of a key, if there is one. */
  function AfterBar(key: string): Option<nat> {
    if key == "" then None
    else if key[|key| - 1] == '|' then Some(|key|)
    else AfterBar(key[..|key| - 1])
  }

  lemma {:induction false} AfterBarBound(key: string)
    ensures AfterBar(key).Some? ==> AfterBar(key).value <= |key|
  {
    if key != "" { AfterBarBound(key[..|key| - 1]); }
  }

  lemma {:induction false} AfterBarOf(p: string, x: string)
    requires '|' !in x
    ensures AfterBar(p + "|" + x) == Some(|p| + 1)
  {
    var key := p + "|" + x;
    if x == "" {
      assert key[|key| - 1] == '|';
    } else {
      assert key[|key| - 1] == x[|x| - 1];
      assert x[|x| - 1] in x;
      var y := x[..|x| - 1];
      assert key[..|key| - 1] == p + "|" + y;
      forall c | c in y ensures c != '|' { assert c in x; }
      AfterBarOf(p, y);
    }
  }

  lemma {:induction false} DigitsNoBar(n: nat, k: nat)
    ensures '|' !in Digits(n, k)
  {
    if k > 0 { DigitsNoBar(n / 10, k - 1); }
  }

  lemma IsoNoBar(d: SessionDate)
    requires Writable(d)
    ensures '|' !in Iso(d)
  {
    hide Digits;
    DigitsNoBar(Year(d), 4); DigitsNoBar(Month(d), 2); DigitsNoBar(Day(d), 2);
  }

  /** The date a stored key carries. */
  lemma KeyCarriesDate(ticker: string, r: Resolution, d: SessionDate)
    requires Writable(d)
    ensures var key := SessionKey(ticker, r, d);
      AfterBar(key).Some? && AfterBar(key).value <= |key| && key[AfterBar(key).value..] == Iso(d)
  {
    hide Iso; hide AfterBar;
    IsoNoBar(d);
    var p := ticker + "|" + Code(r);
    assert SessionKey(ticker, r, d) == p + "|" + Iso(d);
    AfterBarOf(p, Iso(d));
  }

  /** Up to the first bar sign a prefix and its continuation agree. */
  lemma HeadTells(t: string, a: string, u: string, b: string)
    requires '|' !in t && '|' !in u && t + "|" + a <= u + "|" + b
    ensures t == u && a <= b
  {
    var p, key := t + "|" + a, u + "|" + b;
    forall i | 0 <= i < |t| ensures p[i] == key[i] == t[i] != '|' { assert t[i] in t; }
    forall i | 0 <= i < |u| ensures key[i] == u[i] != '|' { assert u[i] in u; }
    assert p[|t|] == key[|t|] == '|' && key[|u|] == '|';
    assert |t| == |u|;
    assert t == key[..|t|] == u;
    assert a == p[|t| + 1..] && b == key[|t| + 1..];
  }

  /** Without bar signs in tickers, a key starts with another ticker's prefix only if ticker and
      resolution are the same. */
  lemma PrefixTells(t: string, r: Resolution, u: string, q: Resolution, rest: string)
    requires '|' !in t && '|' !in u
    requires Prefix(t, r) <= Prefix(u, q) + rest
    ensures t == u && r == q
  {
    hide Code;
    assert Prefix(t, r) == t + "|" + (Code(r) + "|");
    assert Prefix(u, q) + rest == u + "|" + (Code(q) + "|" + rest);
    HeadTells(t, Code(r) + "|", u, Code(q) + "|" + rest);
    CodeTells(r, q, rest);
  }

  lemma CodeTells(r: Resolution, q: Resolution, rest: string)
    ensures Code(r) + "|" <= Code(q) + "|" + rest ==> r == q
  {
    var a, b := Code(r) + "|", Code(q) + "|" + rest;
    if a <= b { assert a[0] == b[0] && a[1] == b[1]; if |a| > 3 || |Code(q)| > 2 { assert a[2] == b[2]; } }
  }
}
