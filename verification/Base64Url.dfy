/** Base64 with the URL-safe alphabet and without padding (section 5 of RFC 4648). */
module Base64Url {
  import opened Packing

  type Sextet = x: int | 0 <= x < 64

  /** Letters, small letters, digits, plus, slash. */
  function Letter(v: Sextet): char {
    if v < 26 then 'A' + (v as char)
    else if v < 52 then 'a' + ((v - 26) as char)
    else if v < 62 then '0' + ((v - 52) as char)
    else if v == 62 then '+' else '/'
  }

  /** The value of a character of the standard alphabet, -1 for any other. */
  function Val(c: char): int {
    if 'A' <= c <= 'Z' then c as int - 'A' as int
    else if 'a' <= c <= 'z' then c as int - 'a' as int + 26
    else if '0' <= c <= '9' then c as int - '0' as int + 52
    else if c == '+' then 62
    else if c == '/' then 63
    else -1
  }

  lemma ValLetter(v: Sextet)
    ensures Val(Letter(v)) == v && Letter(v) != '=' && Letter(v) != '-' && Letter(v) != '_' && Letter(v) != '.'
  {}

  // ---------------------------------------------------------------- encoding

  function ByteAt(x: seq<Byte>, i: nat): int { if i < |x| then x[i] else 0 }

  /** Four characters for up to three bytes, padded with equals signs. */
  function Group(x: seq<Byte>): (s: string)
    requires 1 <= |x|
    ensures |s| == 4
  {
    var n := ByteAt(x, 0) * 65536 + ByteAt(x, 1) * 256 + ByteAt(x, 2);
    [Letter(n / 262144 % 64), Letter(n / 4096 % 64),
     if |x| > 1 then Letter(n / 64 % 64) else '=',
     if |x| > 2 then Letter(n % 64) else '=']
  }

  function Raw(x: seq<Byte>): string
    decreases |x|
  {
    if x == [] then "" else Group(x) + Raw(if |x| <= 3 then [] else x[3..])
  }

  function ToUrl(s: string): (r: string)
    ensures |r| == |s|
    ensures forall i :: 0 <= i < |s| ==> r[i] == UrlChar(s[i])
  {
    seq(|s|, i requires 0 <= i < |s| => UrlChar(s[i]))
  }

  function UrlChar(c: char): char { if c == '+' then '-' else if c == '/' then '_' else c }

  function StdChar(c: char): char { if c == '-' then '+' else if c == '_' then '/' else c }

  function ToStd(s: string): (r: string)
    ensures |r| == |s|
    ensures forall i :: 0 <= i < |s| ==> r[i] == StdChar(s[i])
  {
    seq(|s|, i requires 0 <= i < |s| => StdChar(s[i]))
  }

  function Strip(s: string): string {
    if s != "" && s[|s| - 1] == '=' then Strip(s[..|s| - 1]) else s
  }

  function Encode(x: seq<Byte>): string { Strip(ToUrl(Raw(x))) }

  // ---------------------------------------------------------------- decoding

  function Pad(s: string): (r: string)
    ensures |r| % 4 == 0
    decreases (4 - |s| % 4) % 4
  {
    if |s| % 4 == 0 then s else Pad(s + "=")
  }

  /** The bytes of one group of four characters; what an invalid third or fourth character gives is
      what shifting and masking -1 gives. */
  function Ungroup(s: string): seq<Byte>
    requires |s| >= 4 && Val(s[0]) >= 0 && Val(s[1]) >= 0
  {
    var (a, b, c, d) := (Val(s[0]), Val(s[1]), Val(s[2]), Val(s[3]));
    [a * 4 + b / 16]
    + (if s[2] == '=' then [] else [if c < 0 then 255 else b % 16 * 16 + c / 4])
    + (if s[3] == '=' then [] else [if d < 0 then 255 else (if c < 0 then 3 else c % 4) * 64 + d])
  }

  function Groups(s: string): seq<Byte> {
    if |s| < 4 || Val(s[0]) < 0 || Val(s[1]) < 0 then [] else Ungroup(s[..4]) + Groups(s[4..])
  }

  function Decode(s: string): seq<Byte> { Groups(Pad(ToStd(s))) }

  // ---------------------------------------------------------------- the round trip

  lemma UngroupGroup(x: seq<Byte>)
    requires x != []
    ensures Val(Group(x)[0]) >= 0 && Val(Group(x)[1]) >= 0
    ensures Ungroup(Group(x)) == if |x| <= 3 then x else x[..3]
  {
    hide Val; hide Letter;
    var n := ByteAt(x, 0) * 65536 + ByteAt(x, 1) * 256 + ByteAt(x, 2);
    ValLetter(n / 262144 % 64); ValLetter(n / 4096 % 64); ValLetter(n / 64 % 64); ValLetter(n % 64);
    Sextets(ByteAt(x, 0), ByteAt(x, 1), ByteAt(x, 2));
  }

  lemma Sextets(x: Byte, y: Byte, z: Byte)
    ensures var n := x * 65536 + y * 256 + z;
      var (a, b, c, d) := (n / 262144 % 64, n / 4096 % 64, n / 64 % 64, n % 64);
      && a == x / 4 && b == x % 4 * 16 + y / 16 && c == y % 16 * 4 + z / 64 && d == z % 64
      && a * 4 + b / 16 == x && b % 16 * 16 + c / 4 == y && c % 4 * 64 + d == z
  {
    var n := x * 65536 + y * 256 + z;
    var (x1, x0, y1, y0, z1, z0) := (x / 4, x % 4, y / 16, y % 16, z / 64, z % 64);
    var (a, b, c) := (x1, 16 * x0 + y1, 4 * y0 + z1);
    Quotients(n, a, 262144, 4096 * b + 64 * c + z0);
    Quotients(n, 64 * a + b, 4096, 64 * c + z0);
    Quotients(n, 64 * (64 * a + b) + c, 64, z0);
    Quotients(64 * a + b, a, 64, b);
    Quotients(64 * (64 * a + b) + c, 64 * a + b, 64, c);
    Quotients(b, x0, 16, y1);
    Quotients(c, y0, 4, z1);
  }

  lemma {:induction false} GroupsRaw(x: seq<Byte>)
    ensures Groups(Raw(x)) == x
    decreases |x|
  {
    hide Val; hide Group; hide Ungroup;
    if x != [] {
      var rest := if |x| <= 3 then [] else x[3..];
      GroupsRaw(rest);
      UngroupGroup(x);
      assert Raw(x)[..4] == Group(x) && Raw(x)[4..] == Raw(rest);
      assert Raw(x)[0] == Group(x)[0] && Raw(x)[1] == Group(x)[1];
      assert x == (if |x| <= 3 then x else x[..3]) + rest;
    }
  }

  /** Standard letters followed by at most two equals signs that fill the last group. */
  ghost predicate WellPadded(s: string, k: nat) {
    && k <= |s| && |s| % 4 == 0 && |s| - k <= 2
    && (forall i :: 0 <= i < k ==> s[i] != '=' && s[i] != '-' && s[i] != '_' && s[i] != '.')
    && (forall i :: k <= i < |s| ==> s[i] == '=')
  }

  function Letters(x: seq<Byte>): nat { |x| / 3 * 4 + if |x| % 3 == 0 then 0 else |x| % 3 + 1 }

  lemma GroupPadded(x: seq<Byte>)
    requires x != []
    ensures WellPadded(Group(x), if |x| >= 3 then 4 else |x| + 1)
  {
    hide Val; hide Letter;
    var n := ByteAt(x, 0) * 65536 + ByteAt(x, 1) * 256 + ByteAt(x, 2);
    ValLetter(n / 262144 % 64); ValLetter(n / 4096 % 64); ValLetter(n / 64 % 64); ValLetter(n % 64);
  }

  lemma {:induction false} RawPadded(x: seq<Byte>)
    ensures WellPadded(Raw(x), Letters(x))
    decreases |x|
  {
    hide Group;
    if x != [] {
      var rest := if |x| <= 3 then [] else x[3..];
      RawPadded(rest);
      GroupPadded(x);
      PaddedConcat(Group(x), Raw(rest), if |x| >= 3 then 4 else |x| + 1, Letters(rest), x, rest);
    }
  }

  lemma PaddedConcat(g: string, r: string, k: nat, m: nat, x: seq<Byte>, rest: seq<Byte>)
    requires x != [] && rest == (if |x| <= 3 then [] else x[3..]) && |g| == 4
    requires k == (if |x| >= 3 then 4 else |x| + 1) && m == Letters(rest)
    requires WellPadded(g, k) && WellPadded(r, m) && (rest == [] ==> r == "")
    ensures WellPadded(g + r, Letters(x))
  {
    if |x| >= 3 {
      assert Letters(x) == 4 + m;
      forall i | 0 <= i < |g + r| ensures (g + r)[i] == if i < 4 then g[i] else r[i - 4] {}
    } else {
      assert g + r == g && Letters(x) == k;
    }
  }

  lemma {:induction false} StripsPads(s: string, k: nat)
    requires k <= |s| && (k > 0 ==> s[k - 1] != '=') && forall i :: k <= i < |s| ==> s[i] == '='
    ensures Strip(s) == s[..k]
  {
    if |s| > k {
      StripsPads(s[..|s| - 1], k);
      assert s[..|s| - 1][..k] == s[..k];
    } else {
      assert s[..k] == s;
    }
  }

  lemma PadsBack(s: string, k: nat)
    requires WellPadded(s, k)
    ensures Pad(s[..k]) == s
  {
    var core := s[..k];
    if |s| == k + 1 {
      assert core + "=" == s;
    } else if |s| == k + 2 {
      assert core + "=" + "=" == s;
      assert Pad(core) == Pad(core + "=") == Pad(core + "=" + "=");
    } else {
      assert core == s;
    }
  }

  /** The padded form without its padding. */
  function Core(x: seq<Byte>): string {
    RawPadded(x);
    Raw(x)[..Letters(x)]
  }

  /** The encoded text is the letters of the padded form, in the URL alphabet. */
  lemma EncodeIs(x: seq<Byte>)
    ensures Encode(x) == ToUrl(Core(x))
    ensures forall c :: c in Encode(x) ==> c != '=' && c != '+' && c != '/' && c != '.'
  {
    RawPadded(x);
    var s, k := Raw(x), Letters(x);
    hide Raw; hide Letters;
    StripsPads(ToUrl(s), k);
    assert ToUrl(s)[..k] == ToUrl(s[..k]);
  }

  /** The i-th group of six bits, the bytes read from the most significant bit on and filled up with zeros. */
  function SixBits(x: seq<Byte>, i: nat): Sextet {
    var (a, b, c) := (ByteAt(x, i / 4 * 3), ByteAt(x, i / 4 * 3 + 1), ByteAt(x, i / 4 * 3 + 2));
    if i % 4 == 0 then a / 4
    else if i % 4 == 1 then a % 4 * 16 + b / 16
    else if i % 4 == 2 then b % 16 * 4 + c / 64
    else c % 64
  }

  lemma GroupLetters(x: seq<Byte>, i: nat)
    requires x != [] && i < 4 && i <= |x|
    ensures Group(x)[i] == Letter(SixBits(x, i))
  {
    hide Letter;
    Sextets(ByteAt(x, 0), ByteAt(x, 1), ByteAt(x, 2));
  }

  lemma {:induction false} RawLetters(x: seq<Byte>, i: nat)
    requires i < Letters(x)
    ensures |Raw(x)| >= Letters(x) && Raw(x)[i] == Letter(SixBits(x, i))
    decreases |x|
  {
    hide Group; hide Letter;
    RawPadded(x);
    if i < 4 {
      GroupLetters(x, i);
    } else {
      RawLetters(x[3..], i - 4);
      SixBitsLater(x, i);
    }
  }

  lemma SixBitsLater(x: seq<Byte>, i: nat)
    requires i >= 4 && |x| > 3
    ensures SixBits(x, i) == SixBits(x[3..], i - 4)
  {
    assert (i - 4) / 4 == i / 4 - 1 && (i - 4) % 4 == i % 4;
    var k := i / 4 * 3;
    assert ByteAt(x, k) == ByteAt(x[3..], k - 3) && ByteAt(x, k + 1) == ByteAt(x[3..], k - 2);
    assert ByteAt(x, k + 2) == ByteAt(x[3..], k - 1);
    hide ByteAt;
  }

  /** The text has one character for every six bits begun: letters, small letters, digits, hyphen, underscore
      (table 2 of RFC 4648). */
  lemma EncodeAt(x: seq<Byte>, i: nat)
    ensures |Encode(x)| == (4 * |x| + 2) / 3
    ensures i < |Encode(x)| ==>
      var v := SixBits(x, i);
      Encode(x)[i] ==
        if v < 26 then 'A' + (v as char)
        else if v < 52 then 'a' + ((v - 26) as char)
        else if v < 62 then '0' + ((v - 52) as char)
        else if v == 62 then '-' else '_'
  {
    EncodeIs(x);
    RawPadded(x);
    assert Letters(x) == (4 * |x| + 2) / 3;
    if i < Letters(x) { RawLetters(x, i); }
    hide Raw; hide Encode; hide SixBits;
  }

  /** Decoding undoes encoding for every byte string. */
  lemma DecodeEncode(x: seq<Byte>)
    ensures Decode(Encode(x)) == x
  {
    hide Strip;
    var s, k := Raw(x), Letters(x);
    RawPadded(x);
    EncodeIs(x);
    GroupsRaw(x);
    hide Raw; hide Letters; hide Groups; hide Encode;
    PadsBack(s, k);
    assert ToStd(ToUrl(s[..k])) == s[..k];
  }

  /** Different byte strings have different texts. */
  lemma EncodeInjective(x: seq<Byte>, y: seq<Byte>)
    requires Encode(x) == Encode(y)
    ensures x == y
  {
    hide Encode; hide Decode;
    DecodeEncode(x);
    DecodeEncode(y);
  }

  // ---------------------------------------------------------------- the loops

  method EncodeBytes(x: seq<Byte>) returns (out: string)
    ensures out == Encode(x)
  {
    hide Group;
    out := "";
    var i := 0;
    assert x[0..] == x;
    while i < |x|
      invariant 0 <= i && out + Raw(if i < |x| then x[i..] else []) == Raw(x)
    {
      var group := Group(x[i..]);
      assert x[i..] != [];
      assert (if |x[i..]| <= 3 then [] else x[i..][3..]) == if i + 3 < |x| then x[i + 3..] else [];
      assert out + (group + Raw(if i + 3 < |x| then x[i + 3..] else [])) ==
        out + group + Raw(if i + 3 < |x| then x[i + 3..] else []);
      out := out + group;
      i := i + 3;
    }
    assert out + "" == out;
    hide Raw; hide UrlChar;
    out := ToUrl(out);
    while out != "" && out[|out| - 1] == '='
      invariant Strip(out) == Encode(x)
      decreases |out|
    {
      out := out[..|out| - 1];
    }
  }

  method DecodeText(text: string) returns (out: seq<Byte>)
    ensures out == Decode(text)
  {
    hide Val; hide Ungroup;
    var s := ToStd(text);
    while |s| % 4 != 0
      invariant Pad(s) == Pad(ToStd(text))
      decreases (4 - |s| % 4) % 4
    {
      s := s + "=";
    }
    out := [];
    var i := 0;
    assert s[0..] == s;
    while i + 3 < |s|
      invariant 0 <= i <= |s| && out + Groups(s[i..]) == Groups(s)
    {
      var t := s[i..];
      assert t[0] == s[i] && t[1] == s[i + 1] && t[4..] == s[i + 4..];
      if Val(s[i]) < 0 || Val(s[i + 1]) < 0 { break; }
      var group := Ungroup(t[..4]);
      assert out + (group + Groups(s[i + 4..])) == out + group + Groups(s[i + 4..]);
      out := out + group;
      i := i + 4;
    }
    assert out + [] == out;
  }
}
