/** Shared vocabulary: optional values, C++ integer division, candles and timestamps. */
module Domain {
  datatype Option<+T> = None | Some(value: T)

  /** Nanoseconds since 1970-01-01T00:00Z. */
  type Timestamp = nat

  /** Integer division that truncates toward zero, as C++ does. */
  function TDiv(a: int, b: int): int
    requires b > 0
  {
    if a >= 0 then a / b else -((-a) / b)
  }

  function Min(a: int, b: int): int {
    if a <= b then a else b
  }

  function Max(a: int, b: int): int {
    if a >= b then a else b
  }

  /** The character of a decimal digit. */
  function Digit(n: nat): char
    requires n < 10
  {
    '0' + (n as char)
  }

  /** One OHLCV record; all money in paise. */
  datatype Candle = Candle(ts: Timestamp, open: int, high: int, low: int, close: int, volume: int)

  /** s is strictly increasing. */
  ghost predicate Increasing(s: seq<int>) {
    forall i, j :: 0 <= i < j < |s| ==> s[i] < s[j]
  }

  lemma NothingIncreasing()
    ensures Increasing([])
  {}

  lemma ConsIncreasing(x: int, s: seq<int>)
    requires Increasing(s) && forall y :: y in s ==> x < y
    ensures Increasing([x] + s)
  {
    forall i, j | 0 <= i < j < |s| + 1 ensures ([x] + s)[i] < ([x] + s)[j] {
      assert s[j - 1] in s;
    }
  }

  /** A strictly increasing sequence is determined by its set of elements. */
  lemma {:induction false} IncreasingUnique(a: seq<int>, b: seq<int>)
    requires Increasing(a) && Increasing(b)
    requires forall x :: x in a <==> x in b
    ensures a == b
  {
    if a == [] {
      assert forall i :: 0 <= i < |b| ==> b[i] in b;
    } else {
      assert a[0] in b && b[0] in a;
      assert a[0] == b[0];
      var a', b' := a[1..], b[1..];
      forall x ensures x in a' <==> x in b' {
        assert x in a' ==> x != a[0] && x in a;
        assert x in b' ==> x != b[0] && x in b;
      }
      IncreasingUnique(a', b');
      assert a == [a[0]] + a' && b == [b[0]] + b';
    }
  }
}

/** Order-preserving selection from a sequence, with the laws the cache proofs use. */
module Selection {
  import opened Domain

  function Filter<T>(s: seq<T>, p: T -> bool): seq<T> {
    if s == [] then []
    else Filter(s[..|s| - 1], p) + (if p(s[|s| - 1]) then [s[|s| - 1]] else [])
  }

  lemma FilterStep<T>(s: seq<T>, i: nat, p: T -> bool)
    requires i < |s|
    ensures Filter(s[..i + 1], p) == Filter(s[..i], p) + (if p(s[i]) then [s[i]] else [])
  {
    assert s[..i + 1][..i] == s[..i];
  }

  lemma {:induction false} FilterMember<T>(s: seq<T>, p: T -> bool)
    ensures forall x :: x in Filter(s, p) <==> x in s && p(x)
  {
    if s != [] {
      FilterMember(s[..|s| - 1], p);
      assert s == s[..|s| - 1] + [s[|s| - 1]];
    }
  }

  /** Selections that agree on every element are equal. */
  lemma {:induction false} FilterAgree<T>(s: seq<T>, p: T -> bool, q: T -> bool)
    requires forall x :: x in s ==> p(x) == q(x)
    ensures Filter(s, p) == Filter(s, q)
  {
    if s != [] {
      assert s[|s| - 1] in s;
      FilterAgree(s[..|s| - 1], p, q);
    }
  }

  function Both<T>(p: T -> bool, q: T -> bool): T -> bool {
    x => p(x) && q(x)
  }

  /** Selecting twice is selecting by the conjunction. */
  lemma {:induction false} FilterTwice<T>(s: seq<T>, p: T -> bool, q: T -> bool)
    ensures Filter(Filter(s, p), q) == Filter(s, Both(p, q))
  {
    if s != [] {
      var t, x := Filter(s[..|s| - 1], p), s[|s| - 1];
      FilterTwice(s[..|s| - 1], p, q);
      if p(x) {
        FilterStep(t + [x], |t|, q);
        assert (t + [x])[..|t|] == t && (t + [x])[..|t| + 1] == t + [x];
        assert Filter(s, p) == t + [x];
      } else {
        assert Filter(s, p) == t;
      }
    }
  }

  lemma {:induction false} FilterIncreasing(s: seq<int>, p: int -> bool)
    requires Increasing(s)
    ensures Increasing(Filter(s, p))
  {
    if s != [] {
      var t := Filter(s[..|s| - 1], p);
      FilterIncreasing(s[..|s| - 1], p);
      FilterMember(s[..|s| - 1], p);
      forall i | 0 <= i < |t| ensures t[i] < s[|s| - 1] { assert t[i] in t; }
    }
  }

  lemma {:induction false} FilterShorter<T>(s: seq<T>, p: T -> bool)
    ensures |Filter(s, p)| <= |s|
  {
    if s != [] { FilterShorter(s[..|s| - 1], p); }
  }

  lemma {:induction false} FilterNone<T>(s: seq<T>, p: T -> bool)
    requires forall x :: x in s ==> !p(x)
    ensures Filter(s, p) == []
  {
    if s != [] {
      assert s[|s| - 1] in s;
      FilterNone(s[..|s| - 1], p);
    }
  }

  lemma {:induction false} FilterConcat<T>(a: seq<T>, b: seq<T>, p: T -> bool)
    ensures Filter(a + b, p) == Filter(a, p) + Filter(b, p)
  {
    if b == [] {
      assert a + b == a;
    } else {
      var n := |b| - 1;
      FilterConcat(a, b[..n], p);
      assert (a + b)[..|a + b| - 1] == a + b[..n];
      assert Filter(a, p) + (Filter(b[..n], p) + (if p(b[n]) then [b[n]] else [])) ==
             Filter(a, p) + Filter(b[..n], p) + (if p(b[n]) then [b[n]] else []);
    }
  }
}
