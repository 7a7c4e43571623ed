/** The binary form of one session's bars: a twelve-byte header and forty-eight bytes a bar, integers
    little-endian, signed values in two's complement. */
module Packing {
  type Byte = x: int | 0 <= x < 256

  const TWO_32 := 0x1_0000_0000
  const TWO_63 := 0x8000_0000_0000_0000
  const TWO_64 := 0x1_0000_0000_0000_0000

  type Int64 = x: int | -TWO_63 <= x < TWO_63

  datatype Record = Record(ts: Int64, open: Int64, high: Int64, low: Int64, close: Int64, volume: Int64)

  /** A bar as it comes out of a blob: the symbol and the resolution are the caller's. */
  datatype Unpacked = Unpacked(symbol: nat, resolution: string, record: Record)

  datatype Result<T> = Ok(value: T) | Err(error: string)

  const MAGIC: seq<Byte> := [0x41, 0x43, 0x42, 0x31]
  const VERSION := 1
  const HEADER := 12
  const RECORD := 48

  // ---------------------------------------------------------------- little-endian integers

  function Pow256(n: nat): (p: nat)
    ensures p > 0
  {
    if n == 0 then 1 else 256 * Pow256(n - 1)
  }

  /** The n low bytes of v, least significant first. */
  function LittleEndian(v: nat, n: nat): (bytes: seq<Byte>)
    ensures |bytes| == n
  {
    if n == 0 then [] else [v % 256] + LittleEndian(v / 256, n - 1)
  }

  function Value(bytes: seq<Byte>): nat {
    if bytes == [] then 0 else bytes[0] + 256 * Value(bytes[1..])
  }

  lemma {:induction false} ValueOfBytes(v: nat, n: nat)
    requires v < Pow256(n)
    ensures Value(LittleEndian(v, n)) == v
  {
    if n > 0 {
      ValueOfBytes(v / 256, n - 1);
      assert LittleEndian(v, n)[1..] == LittleEndian(v / 256, n - 1);
    }
  }

  lemma {:induction false} BytesOfValue(bytes: seq<Byte>)
    ensures Value(bytes) < Pow256(|bytes|) && LittleEndian(Value(bytes), |bytes|) == bytes
  {
    if bytes != [] {
      BytesOfValue(bytes[1..]);
      var rest := Value(bytes[1..]);
      assert (bytes[0] + 256 * rest) / 256 == rest && (bytes[0] + 256 * rest) % 256 == bytes[0];
      assert bytes == [bytes[0]] + bytes[1..];
    }
  }

  lemma Powers()
    ensures Pow256(4) == TWO_32 && Pow256(8) == TWO_64
  {
    assert Pow256(2) == 0x1_0000;
    assert Pow256(4) == 256 * (256 * Pow256(2));
    assert Pow256(6) == 256 * (256 * Pow256(4));
    assert Pow256(8) == 256 * (256 * Pow256(6));
  }

  function Unsigned(x: Int64): nat { if x < 0 then x + TWO_64 else x }

  function Signed(u: nat): Int64
    requires u < TWO_64
  {
    if u >= TWO_63 then u - TWO_64 else u
  }

  /** The value of the first eight bytes, as a signed integer. */
  function SignedValue(bytes: seq<Byte>): Int64
    requires |bytes| == 8
  {
    BytesOfValue(bytes);
    Powers();
    Signed(Value(bytes))
  }

  lemma SignedRoundTrip(x: Int64)
    ensures SignedValue(LittleEndian(Unsigned(x), 8)) == x
  {
    Powers();
    ValueOfBytes(Unsigned(x), 8);
  }

  lemma BytesRoundTrip(bytes: seq<Byte>)
    requires |bytes| == 8
    ensures LittleEndian(Unsigned(SignedValue(bytes)), 8) == bytes
  {
    BytesOfValue(bytes);
    Powers();
  }

  // ---------------------------------------------------------------- one bar

  function Bytes(x: Int64): (b: seq<Byte>)
    ensures |b| == 8
  {
    LittleEndian(Unsigned(x), 8)
  }

  function Packed(r: Record): (b: seq<Byte>)
    ensures |b| == RECORD
  {
    Bytes(r.ts) + Bytes(r.open) + Bytes(r.high) + Bytes(r.low) + Bytes(r.close) + Bytes(r.volume)
  }

  function Parsed(b: seq<Byte>): Record
    requires |b| == RECORD
  {
    Record(SignedValue(b[0..8]), SignedValue(b[8..16]), SignedValue(b[16..24]),
           SignedValue(b[24..32]), SignedValue(b[32..40]), SignedValue(b[40..48]))
  }

  /** Six eight-byte parts can be cut out of their concatenation. */
  lemma SixParts(a: seq<Byte>, b: seq<Byte>, c: seq<Byte>, d: seq<Byte>, e: seq<Byte>, f: seq<Byte>)
    requires |a| == |b| == |c| == |d| == |e| == |f| == 8
    ensures var s := a + b + c + d + e + f;
      s[0..8] == a && s[8..16] == b && s[16..24] == c && s[24..32] == d && s[32..40] == e && s[40..48] == f
  {
    var s := a + b + c + d + e + f;
    SliceIs(s, 0, a); SliceIs(s, 8, b); SliceIs(s, 16, c); SliceIs(s, 24, d); SliceIs(s, 32, e); SliceIs(s, 40, f);
  }

  lemma SliceIs(s: seq<Byte>, at: nat, part: seq<Byte>)
    requires at + |part| <= |s|
    requires forall i :: at <= i < at + |part| ==> s[i] == part[i - at]
    ensures s[at..at + |part|] == part
  {
    var cut := s[at..at + |part|];
    forall i | 0 <= i < |part| ensures cut[i] == part[i] { assert cut[i] == s[at + i]; }
    assert cut == part;
  }

  /** A slice of a slice is a slice. */
  lemma SliceOfSlice(s: seq<Byte>, at: nat, n: nat, i: nat, m: nat)
    requires at + n <= |s| && i + m <= n
    ensures s[at..at + n][i..i + m] == s[at + i..at + i + m]
  {
    var whole, part := s[at..at + n], s[at + i..at + i + m];
    forall k | i <= k < i + m ensures whole[k] == part[k - i] {
      assert whole[k] == s[at + k] && part[k - i] == s[at + k];
    }
    SliceIs(whole, i, part);
  }

  lemma ParsedPacked(r: Record)
    ensures Parsed(Packed(r)) == r
  {
    hide SignedValue; hide LittleEndian;
    SixParts(Bytes(r.ts), Bytes(r.open), Bytes(r.high), Bytes(r.low), Bytes(r.close), Bytes(r.volume));
    SignedRoundTrip(r.ts); SignedRoundTrip(r.open); SignedRoundTrip(r.high);
    SignedRoundTrip(r.low); SignedRoundTrip(r.close); SignedRoundTrip(r.volume);
  }

  lemma PackedParsed(b: seq<Byte>)
    requires |b| == RECORD
    ensures Packed(Parsed(b)) == b
  {
    hide LittleEndian; hide SignedValue;
    BytesRoundTrip(b[0..8]); BytesRoundTrip(b[8..16]); BytesRoundTrip(b[16..24]);
    BytesRoundTrip(b[24..32]); BytesRoundTrip(b[32..40]); BytesRoundTrip(b[40..48]);
    assert b[0..8] + b[8..16] + b[16..24] + b[24..32] + b[32..40] + b[40..48] == b;
  }

  // ---------------------------------------------------------------- blobs

  function Header(count: nat): (b: seq<Byte>)
    ensures |b| == HEADER
  {
    MAGIC + LittleEndian(VERSION, 4) + LittleEndian(count % TWO_32, 4)
  }

  function Body(records: seq<Record>): (b: seq<Byte>)
    ensures |b| == RECORD * |records|
  {
    if records == [] then [] else Body(records[..|records| - 1]) + Packed(records[|records| - 1])
  }

  function Pack(records: seq<Record>): seq<Byte> { Header(|records|) + Body(records) }

  /** The first n bars of a blob whose body is long enough. */
  function ParsedBody(body: seq<Byte>, n: nat): (r: seq<Record>)
    requires |body| >= RECORD * n
    ensures |r| == n
  {
    if n == 0 then [] else ParsedBody(body, n - 1) + [Parsed(body[RECORD * (n - 1)..RECORD * n])]
  }

  function HeaderError(blob: seq<Byte>): Result<nat> {
    if |blob| < HEADER then Err("bar blob too short")
    else if blob[..4] != MAGIC then Err("bar blob magic mismatch")
    else if Value(blob[4..8]) != VERSION then Err("bar blob version mismatch")
    else if |blob| != HEADER + RECORD * Value(blob[8..12]) then Err("bar blob size mismatch")
    else Ok(Value(blob[8..12]))
  }

  function Unpack(blob: seq<Byte>): Result<seq<Record>> {
    var h := HeaderError(blob);
    if h.Err? then Err(h.error) else Ok(ParsedBody(blob[HEADER..], h.value))
  }

  lemma HeaderFields(count: nat, body: seq<Byte>)
    ensures var b := Header(count) + body;
      && b[..4] == MAGIC && Value(b[4..8]) == VERSION && Value(b[8..12]) == count % TWO_32 && b[HEADER..] == body
  {
    hide LittleEndian; hide Value;
    var b := Header(count) + body;
    assert b[4..8] == LittleEndian(VERSION, 4) && b[8..12] == LittleEndian(count % TWO_32, 4);
    Powers();
    ValueOfBytes(VERSION, 4);
    ValueOfBytes(count % TWO_32, 4);
  }

  /** Byte k of the little-endian form is the k-th digit to base 256. */
  lemma {:induction false} LittleEndianAt(v: nat, n: nat, k: nat)
    requires k < n
    ensures LittleEndian(v, n)[k] == v / Pow256(k) % 256
  {
    if k > 0 {
      LittleEndianAt(v / 256, n - 1, k - 1);
      DivideTwice(v, Pow256(k - 1));
    }
  }

  lemma Multiple(d: int, m: int)
    requires m > 0
    ensures d >= 1 ==> d * m >= m
    ensures d <= -1 ==> d * m <= -m
  {
    if d >= 1 { assert (d - 1) * m >= 0; }
    if d <= -1 { assert (-d - 1) * m >= 0; }
  }

  lemma Quotients(n: int, q: int, m: int, r: int)
    requires n == q * m + r && 0 <= r < m
    ensures n / m == q && n % m == r
  {
    var p, s := n / m, n % m;
    assert n == p * m + s;
    assert (p - q) * m == p * m - q * m == r - s;
    Multiple(p - q, m);
  }

  lemma DivideTwice(v: nat, p: nat)
    requires p > 0
    ensures v / 256 / p == v / (256 * p)
  {
    var a, q := v / 256, v / 256 / p;
    assert v == 256 * a + v % 256 && a == q * p + a % p;
    assert v == q * (256 * p) + (256 * (a % p) + v % 256);
    Quotients(v, q, 256 * p, 256 * (a % p) + v % 256);
  }

  /** The bar's time, open, high, low, close and volume stand in this order from a position on, eight bytes each. */
  ghost predicate StandsAt(b: seq<Byte>, at: nat, r: Record)
    requires at + 48 <= |b|
  {
    && b[at..at + 8] == LittleEndian(Unsigned(r.ts), 8) && b[at + 8..at + 16] == LittleEndian(Unsigned(r.open), 8)
    && b[at + 16..at + 24] == LittleEndian(Unsigned(r.high), 8)
    && b[at + 24..at + 32] == LittleEndian(Unsigned(r.low), 8)
    && b[at + 32..at + 40] == LittleEndian(Unsigned(r.close), 8)
    && b[at + 40..at + 48] == LittleEndian(Unsigned(r.volume), 8)
  }

  lemma PackedStands(b: seq<Byte>, at: nat, r: Record)
    requires at + 48 <= |b| && b[at..at + 48] == Packed(r)
    ensures StandsAt(b, at, r)
  {
    hide LittleEndian;
    SixParts(Bytes(r.ts), Bytes(r.open), Bytes(r.high), Bytes(r.low), Bytes(r.close), Bytes(r.volume));
    SliceOfSlice(b, at, 48, 0, 8); SliceOfSlice(b, at, 48, 8, 8); SliceOfSlice(b, at, 48, 16, 8);
    SliceOfSlice(b, at, 48, 24, 8); SliceOfSlice(b, at, 48, 32, 8); SliceOfSlice(b, at, 48, 40, 8);
  }

  /** Where everything stands: the letters ACB1, version 1, the number of bars, and the bars from byte 12 on. */
  lemma BlobLayout(records: seq<Record>, i: nat)
    ensures var b := Pack(records);
      && |b| == 12 + 48 * |records|
      && b[..4] == [65, 67, 66, 49] && b[4..8] == [1, 0, 0, 0] && b[8..12] == LittleEndian(|records| % 0x1_0000_0000, 4)
      && (i < |records| ==> StandsAt(b, 12 + 48 * i, records[i]))
  {
    hide LittleEndian; hide Body; hide Header; hide Packed; hide StandsAt;
    HeaderBytes(|records|, Body(records));
    if i < |records| {
      BodyAt(records, i);
      SliceAfter(Header(|records|), Body(records), 48 * i, 48);
      PackedStands(Pack(records), 12 + 48 * i, records[i]);
    }
  }

  lemma SliceAfter(h: seq<Byte>, body: seq<Byte>, k: nat, n: nat)
    requires k + n <= |body|
    ensures (h + body)[|h| + k..|h| + k + n] == body[k..k + n]
  {
    var b, part := h + body, body[k..k + n];
    forall j | |h| + k <= j < |h| + k + n ensures b[j] == part[j - (|h| + k)] { assert b[j] == body[j - |h|]; }
    SliceIs(b, |h| + k, part);
  }

  lemma FieldsAt(b: seq<Byte>, at: nat, r: Record)
    requires at + 48 <= |b| && b[at..at + 48] == Packed(r)
    ensures b[at..at + 8] == Bytes(r.ts) && b[at + 8..at + 16] == Bytes(r.open) && b[at + 16..at + 24] == Bytes(r.high)
    ensures b[at + 24..at + 32] == Bytes(r.low) && b[at + 32..at + 40] == Bytes(r.close)
    ensures b[at + 40..at + 48] == Bytes(r.volume)
  {
    hide Bytes;
    SixParts(Bytes(r.ts), Bytes(r.open), Bytes(r.high), Bytes(r.low), Bytes(r.close), Bytes(r.volume));
    SliceOfSlice(b, at, 48, 0, 8); SliceOfSlice(b, at, 48, 8, 8); SliceOfSlice(b, at, 48, 16, 8);
    SliceOfSlice(b, at, 48, 24, 8); SliceOfSlice(b, at, 48, 32, 8); SliceOfSlice(b, at, 48, 40, 8);
  }

  lemma HeaderBytes(count: nat, body: seq<Byte>)
    ensures var b := Header(count) + body;
      && b[..4] == [65, 67, 66, 49] && b[4..8] == [1, 0, 0, 0] && b[8..12] == LittleEndian(count % 0x1_0000_0000, 4)
  {
    assert LittleEndian(1, 4) == [1, 0, 0, 0] by {
      assert LittleEndian(0, 2) == [0, 0] && LittleEndian(0, 3) == [0] + LittleEndian(0, 2);
    }
    hide LittleEndian;
  }

  lemma {:induction false} BodyAt(records: seq<Record>, i: nat)
    requires i < |records|
    ensures Body(records)[48 * i..48 * i + 48] == Packed(records[i])
  {
    hide Packed;
    var n := |records| - 1;
    if i < n {
      BodyAt(records[..n], i);
      assert Body(records)[48 * i..48 * i + 48] == Body(records[..n])[48 * i..48 * i + 48];
    }
  }

  lemma {:induction false} ParsedPrefix(records: seq<Record>, rest: seq<Byte>)
    ensures ParsedBody(Body(records) + rest, |records|) == records
  {
    hide Packed; hide Parsed;
    if records != [] {
      var n := |records| - 1;
      var last := Packed(records[n]);
      ParsedPrefix(records[..n], last + rest);
      assert Body(records) + rest == Body(records[..n]) + (last + rest);
      assert (Body(records) + rest)[RECORD * n..RECORD * (n + 1)] == last;
      ParsedPacked(records[n]);
    }
  }

  /** Unpacking gives the bars back exactly when they can be counted in 32 bits. */
  lemma UnpackPackIff(records: seq<Record>)
    ensures Unpack(Pack(records)) == Ok(records) <==> |records| < TWO_32
    ensures |records| >= TWO_32 ==> Unpack(Pack(records)) == Err("bar blob size mismatch")
  {
    hide Header; hide Body; hide Value; hide ParsedBody;
    var body := Body(records);
    HeaderFields(|records|, body);
    if |records| < TWO_32 {
      ParsedPrefix(records, []);
      assert body + [] == body;
    }
  }

  lemma {:induction false} BodyParsed(body: seq<Byte>, n: nat)
    requires |body| >= RECORD * n
    ensures Body(ParsedBody(body, n)) == body[..RECORD * n]
  {
    hide Packed; hide Parsed;
    if n > 0 {
      BodyParsed(body, n - 1);
      var at := RECORD * (n - 1);
      var r, last := ParsedBody(body, n - 1), Parsed(body[at..at + RECORD]);
      assert ParsedBody(body, n) == r + [last];
      BodyOfMore(r, last);
      PackedParsed(body[at..at + RECORD]);
      TakeMore(body, at, RECORD);
    }
  }

  lemma BodyOfMore(r: seq<Record>, last: Record)
    ensures Body(r + [last]) == Body(r) + Packed(last)
  {
    hide Packed;
    assert (r + [last])[..|r|] == r;
  }

  lemma TakeMore(s: seq<Byte>, at: nat, n: nat)
    requires at + n <= |s|
    ensures s[..at + n] == s[..at] + s[at..at + n]
  {}

  /** Any blob that is accepted is the packing of what it unpacks to: there is one blob for each list of bars. */
  lemma PackUnpack(blob: seq<Byte>)
    requires Unpack(blob).Ok?
    ensures Pack(Unpack(blob).value) == blob
  {
    hide LittleEndian; hide Value; hide Body; hide ParsedBody;
    var n := HeaderError(blob).value;
    BytesOfValue(blob[4..8]);
    BytesOfValue(blob[8..12]);
    Powers();
    BodyParsed(blob[HEADER..], n);
    assert blob[HEADER..][..RECORD * n] == blob[HEADER..];
    assert blob == blob[..4] + blob[4..8] + blob[8..12] + blob[HEADER..];
  }

  // ---------------------------------------------------------------- the loops

  method AppendLittleEndian(out: seq<Byte>, value: nat, n: nat) returns (more: seq<Byte>)
    ensures more == out + LittleEndian(value, n)
  {
    more := out;
    var v := value;
    for i := 0 to n
      invariant more + LittleEndian(v, n - i) == out + LittleEndian(value, n)
    {
      assert more + LittleEndian(v, n - i) == more + [v % 256] + LittleEndian(v / 256, n - i - 1);
      more := more + [v % 256];
      v := v / 256;
    }
  }

  method ReadLittleEndian(blob: seq<Byte>, offset: nat, n: nat) returns (value: nat)
    requires offset + n <= |blob|
    ensures value == Value(blob[offset..offset + n])
  {
    value := 0;
    for i := n downto 0
      invariant value == Value(blob[offset + i..offset + n])
    {
      var tail := blob[offset + i..offset + n];
      assert tail[0] == blob[offset + i] && tail[1..] == blob[offset + i + 1..offset + n];
      value := value * 256 + blob[offset + i];
    }
  }

  method PackSessionBars(records: seq<Record>) returns (out: seq<Byte>)
    ensures out == Pack(records)
  {
    hide LittleEndian;
    out := MAGIC;
    out := AppendLittleEndian(out, VERSION, 4);
    out := AppendLittleEndian(out, |records| % TWO_32, 4);
    for i := 0 to |records|
      invariant out == Header(|records|) + Body(records[..i])
    {
      assert records[..i + 1][..i] == records[..i];
      out := AppendRecord(out, records[i]);
      assert Body(records[..i + 1]) == Body(records[..i]) + Packed(records[i]);
    }
    assert records[..|records|] == records;
  }

  method AppendRecord(out: seq<Byte>, r: Record) returns (more: seq<Byte>)
    ensures more == out + Packed(r)
  {
    hide LittleEndian;
    more := AppendLittleEndian(out, Unsigned(r.ts), 8);
    more := AppendLittleEndian(more, Unsigned(r.open), 8);
    more := AppendLittleEndian(more, Unsigned(r.high), 8);
    more := AppendLittleEndian(more, Unsigned(r.low), 8);
    more := AppendLittleEndian(more, Unsigned(r.close), 8);
    more := AppendLittleEndian(more, Unsigned(r.volume), 8);
    assert more == out + Packed(r);
  }

  method ReadRecord(blob: seq<Byte>, off: nat) returns (r: Record)
    requires off + RECORD <= |blob|
    ensures r == Parsed(blob[off..off + RECORD])
  {
    hide SignedValue;
    SliceOfSlice(blob, off, RECORD, 0, 8); SliceOfSlice(blob, off, RECORD, 8, 8);
    SliceOfSlice(blob, off, RECORD, 16, 8); SliceOfSlice(blob, off, RECORD, 24, 8);
    SliceOfSlice(blob, off, RECORD, 32, 8); SliceOfSlice(blob, off, RECORD, 40, 8);
    var ts := ReadSigned(blob, off);
    var open := ReadSigned(blob, off + 8);
    var high := ReadSigned(blob, off + 16);
    var low := ReadSigned(blob, off + 24);
    var close := ReadSigned(blob, off + 32);
    var volume := ReadSigned(blob, off + 40);
    r := Record(ts, open, high, low, close, volume);
  }

  method ReadSigned(blob: seq<Byte>, off: nat) returns (x: Int64)
    requires off + 8 <= |blob|
    ensures x == SignedValue(blob[off..off + 8])
  {
    var u := ReadLittleEndian(blob, off, 8);
    BytesOfValue(blob[off..off + 8]);
    Powers();
    x := Signed(u);
  }

  lemma BodySlice(blob: seq<Byte>, i: nat)
    requires HEADER + RECORD * (i + 1) <= |blob|
    ensures var at := HEADER + RECORD * i; blob[at..at + RECORD] == blob[HEADER..][RECORD * i..RECORD * (i + 1)]
  {
    DropThenSlice(blob, HEADER, RECORD * i, RECORD);
  }

  lemma DropThenSlice(s: seq<Byte>, k: nat, a: nat, n: nat)
    requires k + a + n <= |s|
    ensures s[k..][a..a + n] == s[k + a..k + a + n]
  {
    var rest := s[k..];
    forall i | a <= i < a + n ensures rest[i] == s[k + a..k + a + n][i - a] { assert rest[i] == s[k + i]; }
    SliceIs(rest, a, s[k + a..k + a + n]);
  }

  function Labelled(records: seq<Record>, symbol: nat, resolution: string): (r: seq<Unpacked>)
    ensures |r| == |records| && forall i :: 0 <= i < |r| ==> r[i] == Unpacked(symbol, resolution, records[i])
  {
    seq(|records|, i requires 0 <= i < |records| => Unpacked(symbol, resolution, records[i]))
  }

  method UnpackSessionBars(blob: seq<Byte>, symbol: nat, resolution: string) returns (r: Result<seq<Unpacked>>)
    ensures r == match Unpack(blob) case Ok(records) => Ok(Labelled(records, symbol, resolution)) case Err(e) => Err(e)
  {
    hide Value; hide Parsed;
    if |blob| < HEADER { return Err("bar blob too short"); }
    if blob[0] != MAGIC[0] || blob[1] != MAGIC[1] || blob[2] != MAGIC[2] || blob[3] != MAGIC[3] {
      return Err("bar blob magic mismatch");
    }
    assert blob[..4] == MAGIC;
    var version := ReadLittleEndian(blob, 4, 4);
    if version != VERSION { return Err("bar blob version mismatch"); }
    var count := ReadLittleEndian(blob, 8, 4);
    if |blob| != HEADER + RECORD * count { return Err("bar blob size mismatch"); }
    var body := blob[HEADER..];
    var bars: seq<Unpacked> := [];
    var off := HEADER;
    for i := 0 to count
      invariant off == HEADER + RECORD * i && |bars| == i
      invariant bars == Labelled(ParsedBody(body, i), symbol, resolution)
    {
      var record := ReadRecord(blob, off);
      BodySlice(blob, i);
      bars := bars + [Unpacked(symbol, resolution, record)];
      off := off + RECORD;
    }
    r := Ok(bars);
  }
}
