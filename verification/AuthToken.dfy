/** Signed tokens: printed as header.payload.signature, and read back by scanning the payload text. The
    keyed hash is a parameter. */
module Tokens {
  import opened Domain
  import opened Packing
  import opened Base64Url

  /** The keyed hash of a text under the service's secret. */
  type Mac = string -> seq<Byte>

  datatype Claims = Claims(id: Int64, role: string, exp: Int64)

  const TOKEN_HEADER := "{\"alg\":\"HS256\",\"typ\":\"JWT\"}"

  function AsBytes(s: string): (b: seq<Byte>)
    ensures |b| == |s|
  {
    seq(|s|, i requires 0 <= i < |s| => s[i] as int % 256)
  }

  function AsText(b: seq<Byte>): (s: string)
    ensures |s| == |b|
  {
    seq(|b|, i requires 0 <= i < |b| => b[i] as char)
  }

  /** Characters that are single bytes. */
  predicate SmallChars(s: string) { forall c :: c in s ==> c as int < 256 }

  lemma TextRoundTrip(s: string)
    requires SmallChars(s)
    ensures AsText(AsBytes(s)) == s
  {
    forall i | 0 <= i < |s| ensures AsText(AsBytes(s))[i] == s[i] { assert s[i] in s; }
  }

  // ---------------------------------------------------------------- numbers as text

  function ToDecimal(n: nat): string {
    if n < 10 then [Digit(n)] else ToDecimal(n / 10) + [Digit(n % 10)]
  }

  function ToText(x: int): string { if x < 0 then "-" + ToDecimal(-x) else ToDecimal(x) }

  predicate IsDigit(c: char) { '0' <= c <= '9' }

  /** The number read so far, continued with the leading digits of s. */
  function ReadDigits(s: string, sofar: nat): nat {
    if s == "" || !IsDigit(s[0]) then sofar else ReadDigits(s[1..], sofar * 10 + (s[0] as int - '0' as int))
  }

  predicate IsSpace(c: char) { c == ' ' || '\t' <= c <= '\r' }

  function SkipSpace(s: string): string { if s != "" && IsSpace(s[0]) then SkipSpace(s[1..]) else s }

  function Clamp(x: int): Int64 { if x < -TWO_63 then -TWO_63 else if x >= TWO_63 then TWO_63 - 1 else x }

  /** Decimal with optional white space and sign, saturating at 64 bits; none without a digit. */
  function ReadInt(s: string): Option<Int64> {
    var t := SkipSpace(s);
    var signed := t != "" && (t[0] == '-' || t[0] == '+');
    var digits := if signed then t[1..] else t;
    if digits == "" || !IsDigit(digits[0]) then None
    else
      var n: int := ReadDigits(digits, 0);
      Some(Clamp(if signed && t[0] == '-' then -n else n))
  }

  lemma {:induction false} ReadPrinted(n: nat, rest: string)
    ensures ReadDigits(ToDecimal(n) + rest, 0) == ReadDigits(rest, n)
    ensures ToDecimal(n) != "" && forall i :: 0 <= i < |ToDecimal(n)| ==> IsDigit(ToDecimal(n)[i])
  {
    if n >= 10 {
      var last := [Digit(n % 10)];
      ReadPrinted(n / 10, last + rest);
      assert ToDecimal(n) + rest == ToDecimal(n / 10) + (last + rest);
      assert (last + rest)[1..] == rest;
    } else {
      assert (ToDecimal(n) + rest)[1..] == rest;
    }
  }

  /** A printed number followed by something else than a digit reads as itself. */
  lemma ReadIntPrinted(x: Int64, rest: string)
    requires rest != "" && !IsDigit(rest[0])
    ensures ReadInt(ToText(x) + rest) == Some(x)
    ensures forall i :: 0 <= i < |ToText(x)| ==> IsDigit(ToText(x)[i]) || ToText(x)[i] == '-'
    ensures ToText(x) != ""
  {
    hide ToDecimal;
    var n: int := if x < 0 then -(x as int) else x;
    ReadPrinted(n, rest);
    var t := ToText(x) + rest;
    var digits := ToDecimal(n) + rest;
    if x < 0 {
      assert t[0] == '-' && t[1..] == digits && SkipSpace(t) == t;
    } else {
      assert t == digits && IsDigit(t[0]) && SkipSpace(t) == t;
    }
    assert digits[0] == ToDecimal(n)[0];
    assert ReadDigits(rest, n) == n;
  }

  // ---------------------------------------------------------------- scanning

  /** The text from the first occurrence of a key on. */
  function Tail(s: string, key: string): Option<string> {
    if key <= s then Some(s) else if s == "" then None else Tail(s[1..], key)
  }

  /** What is before and after the first c. */
  function Split(s: string, c: char): Option<(string, string)> {
    if s == "" then None
    else if s[0] == c then Some(("", s[1..]))
    else match Split(s[1..], c) case None => None case Some((a, b)) => Some(([s[0]] + a, b))
  }

  function SkipFiller(s: string): string { if s != "" && (s[0] == ' ' || s[0] == '"') then SkipFiller(s[1..]) else s }

  function FindNum(payload: string, key: string): Option<Int64> {
    var at := Tail(payload, key);
    if at.None? then None
    else
      var colon := Split(at.value, ':');
      if colon.None? then None else ReadInt(SkipFiller(colon.value.1))
  }

  function FindStr(payload: string, key: string): Option<string> {
    var at := Tail(payload, key);
    if at.None? then None
    else
      var colon := Split(at.value, ':');
      if colon.None? then None
      else
        var open := Split(colon.value.1, '"');
        if open.None? then None
        else
          var close := Split(open.value.1, '"');
          if close.None? then None else Some(close.value.0)
  }

  const SUB := "\"sub\""
  const ROLE := "\"role\""
  const EXP := "\"exp\""

  function Payload(c: Claims): string {
    "{" + SUB + ":" + ToText(c.id) + "," + ROLE + ":\"" + c.role + "\"," + EXP + ":" + ToText(c.exp) + "}"
  }

  function SigningInput(c: Claims): string { Encode(AsBytes(TOKEN_HEADER)) + "." + Encode(AsBytes(Payload(c))) }

  function MakeToken(mac: Mac, c: Claims): string {
    SigningInput(c) + "." + Encode(mac(SigningInput(c)))
  }

  function ReadClaims(payload: string, now: int): Option<Claims> {
    var id, exp, role := FindNum(payload, SUB), FindNum(payload, EXP), FindStr(payload, ROLE);
    if id.None? || exp.None? || role.None? then None
    else if exp.value < now then None
    else Some(Claims(id.value, role.value, exp.value))
  }

  function Validate(mac: Mac, token: string, now: int): Option<Claims> {
    var first := Split(token, '.');
    if first.None? then None
    else
      var second := Split(first.value.1, '.');
      if second.None? then None
      else
        var input := first.value.0 + "." + second.value.0;
        if Encode(mac(input)) != second.value.1 then None
        else ReadClaims(AsText(Decode(second.value.0)), now)
  }

  // ---------------------------------------------------------------- finding what was printed

  lemma {:induction false} SplitAt(a: string, c: char, rest: string)
    requires c !in a
    ensures Split(a + [c] + rest, c) == Some((a, rest))
  {
    var s := a + [c] + rest;
    if a == "" {
      assert s[1..] == rest;
    } else {
      assert s[0] == a[0] && a[0] in a;
      assert s[1..] == a[1..] + [c] + rest;
      SplitAt(a[1..], c, rest);
      assert [a[0]] + a[1..] == a;
    }
  }

  /** No quotation mark of a is followed by c, if next comes after a. */
  ghost predicate Clear(a: string, next: char, c: char) {
    forall i :: 0 <= i < |a| && a[i] == '"' ==> CharAfter(a, i, next) != c
  }

  function CharAfter(a: string, i: nat, next: char): char {
    if i + 1 < |a| then a[i + 1] else next
  }

  lemma ClearConcat(a: string, b: string, next: char, c: char)
    requires b != "" && Clear(a, b[0], c) && Clear(b, next, c)
    ensures Clear(a + b, next, c)
  {
    var s := a + b;
    forall i | 0 <= i < |s| && s[i] == '"' ensures CharAfter(s, i, next) != c {
      assert s[i] == if i < |a| then a[i] else b[i - |a|];
      if i + 1 < |s| { assert s[i + 1] == if i + 1 < |a| then a[i + 1] else b[i + 1 - |a|]; }
    }
  }

  lemma ClearPlain(a: string, next: char, c: char)
    requires '"' !in a
    ensures Clear(a, next, c)
  {
    forall i | 0 <= i < |a| ensures a[i] != '"' { assert a[i] in a; }
  }

  lemma ClearTail(a: string, next: char, c: char)
    requires a != "" && Clear(a, next, c)
    ensures Clear(a[1..], next, c)
  {
    var b := a[1..];
    forall i | 0 <= i < |b| && b[i] == '"' ensures CharAfter(b, i, next) != c {
      assert a[i + 1] == '"' && CharAfter(a, i + 1, next) == CharAfter(b, i, next);
    }
  }

  /** Text in which nothing looks like the key is skipped. */
  lemma {:induction false} TailClear(a: string, s: string, key: string)
    requires |key| > 1 && key[0] == '"' && s != "" && Clear(a, s[0], key[1])
    ensures Tail(a + s, key) == Tail(s, key)
  {
    var t := a + s;
    if a == "" {
      assert t == s;
    } else {
      assert t[0] == a[0] && t[1] == if |a| > 1 then a[1] else s[0];
      assert CharAfter(a, 0, s[0]) == t[1];
      assert !(key <= t) by { assert a[0] != '"' || t[1] != key[1]; }
      assert t[1..] == a[1..] + s;
      ClearTail(a, s[0], key[1]);
      TailClear(a[1..], s, key);
    }
  }

  /** A key is found where it stands if nothing before it looks like it. */
  lemma TailAt(a: string, key: string, rest: string)
    requires |key| > 1 && key[0] == '"' && Clear(a, key[0], key[1])
    ensures Tail(a + key + rest, key) == Some(key + rest)
  {
    var s := key + rest;
    assert a + key + rest == a + s && s[..|key|] == key && s[0] == key[0];
    TailClear(a, s, key);
  }

  lemma NumberClear(x: Int64)
    ensures '"' !in ToText(x) && '.' !in ToText(x) && SmallChars(ToText(x)) && ToText(x) != ""
    ensures ToText(x)[0] != ' ' && ToText(x)[0] != '"'
  {
    ReadIntPrinted(x, ",");
  }

  /** The number after the first colon behind the key is read. */
  lemma FoundNum(s: string, key: string, gap: string, x: Int64, rest: string)
    requires Tail(s, key) == Some(key + (gap + ":" + ToText(x) + rest)) && ':' !in key + gap
    requires rest != "" && !IsDigit(rest[0])
    ensures FindNum(s, key) == Some(x)
  {
    hide ToText; hide ReadInt; hide Tail;
    var value := ToText(x) + rest;
    assert key + (gap + ":" + ToText(x) + rest) == (key + gap) + [':'] + value;
    SplitAt(key + gap, ':', value);
    NumberClear(x);
    assert value[0] == ToText(x)[0];
    assert SkipFiller(value) == value;
    ReadIntPrinted(x, rest);
  }

  /** The text read behind the key ends at its first quotation mark. */
  lemma FoundStrIff(s: string, key: string, x: string, rest: string)
    requires Tail(s, key) == Some(key + (":\"" + x + "\"" + rest)) && ':' !in key
    ensures FindStr(s, key) == Some(x) <==> '"' !in x
  {
    hide Tail;
    var value := "\"" + x + "\"" + rest;
    assert key + (":\"" + x + "\"" + rest) == key + [':'] + value;
    SplitAt(key, ':', value);
    assert value == "" + ['"'] + (x + "\"" + rest);
    SplitAt("", '"', x + "\"" + rest);
    assert x + "\"" + rest == x + ['"'] + rest;
    if '"' in x { SplitEarly(x, '"', "\"" + rest); assert x + ("\"" + rest) == x + "\"" + rest; }
    else { SplitAt(x, '"', rest); }
  }

  lemma {:induction false} SplitEarly(a: string, c: char, rest: string)
    requires c in a
    ensures Split(a + rest, c).Some? && |Split(a + rest, c).value.0| < |a|
  {
    var s := a + rest;
    assert s[0] == a[0];
    if a[0] != c {
      assert a == [a[0]] + a[1..] && s[1..] == a[1..] + rest;
      SplitEarly(a[1..], c, rest);
    }
  }

  lemma SubFound(c: Claims)
    ensures FindNum(Payload(c), SUB) == Some(c.id)
  {
    hide ToText; hide FindNum; hide Tail;
    var rest := "," + ROLE + ":\"" + c.role + "\"," + EXP + ":" + ToText(c.exp) + "}";
    assert Payload(c) == "{" + SUB + ("" + ":" + ToText(c.id) + rest);
    TailAt("{", SUB, "" + ":" + ToText(c.id) + rest);
    FoundNum(Payload(c), SUB, "", c.id, rest);
  }

  /** What is printed before the key of the role. */
  function BeforeRole(c: Claims): string { "{" + SUB + ":" + ToText(c.id) + "," }

  lemma BeforeRoleClear(c: Claims, x: char)
    requires x != ':' && x != 's'
    ensures Clear(BeforeRole(c), '"', x)
  {
    hide ToText;
    var head := "{" + SUB + ":";
    NumberClear(c.id);
    ClearPlain(ToText(c.id), ',', x);
    ClearPlain(",", '"', x);
    assert head == "{\"sub\":";
    ClearConcat(head, ToText(c.id), ',', x);
    ClearConcat(head + ToText(c.id), ",", '"', x);
  }

  lemma RoleFoundIff(c: Claims)
    ensures FindStr(Payload(c), ROLE) == Some(c.role) <==> '"' !in c.role
  {
    hide ToText; hide FindStr; hide Tail;
    var rest := "," + EXP + ":" + ToText(c.exp) + "}";
    assert Payload(c) == BeforeRole(c) + ROLE + (":\"" + c.role + "\"" + rest);
    BeforeRoleClear(c, 'r');
    hide BeforeRole;
    TailAt(BeforeRole(c), ROLE, ":\"" + c.role + "\"" + rest);
    FoundStrIff(Payload(c), ROLE, c.role, rest);
  }

  lemma ExpFound(c: Claims)
    requires '"' !in c.role
    ensures FindNum(Payload(c), EXP) == Some(c.exp)
  {
    hide ToText; hide FindNum; hide Tail;
    var number := ":" + ToText(c.exp) + "}";
    var before, quoted := BeforeRole(c) + (ROLE + ":"), "\"" + c.role + "\"," + EXP + number;
    assert Payload(c) == before + quoted;
    BeforeRoleClear(c, 'e');
    hide BeforeRole;
    assert ROLE + ":" == "\"role\":";
    ClearConcat(BeforeRole(c), ROLE + ":", '"', 'e');
    TailClear(before, quoted, EXP);
    if c.role == "exp" {
      assert quoted == EXP + ("," + EXP + number);
      TailHere(EXP, "," + EXP + number);
      assert EXP + ("," + EXP + number) == EXP + (("," + EXP) + ":" + ToText(c.exp) + "}");
      FoundNum(Payload(c), EXP, "," + EXP, c.exp, "}");
    } else {
      RoleSkipped(c.role, EXP + number);
      TailHere(EXP, number);
      assert quoted == "\"" + c.role + "\"" + ("," + (EXP + number));
      assert EXP + number == EXP + ("" + ":" + ToText(c.exp) + "}");
      FoundNum(Payload(c), EXP, "", c.exp, "}");
    }
  }

  lemma TailHere(key: string, rest: string)
    ensures Tail(key + rest, key) == Some(key + rest)
  {
    assert (key + rest)[..|key|] == key;
  }

  /** A quoted text without quotation marks is taken for the key only if it is the key. */
  lemma OnlyKeyIsKey(role: string, rest: string)
    requires '"' !in role && EXP <= "\"" + role + "\"" + rest
    ensures role == "exp"
  {
    var s, n := "\"" + role + "\"" + rest, |role|;
    forall i | 1 <= i <= n ensures s[i] != '"' { assert s[i] == role[i - 1] && role[i - 1] in role; }
    assert s[1 + n] == '"';
    assert |EXP| == 5 && EXP[1] == 'e' && EXP[2] == 'x' && EXP[3] == 'p' && EXP[4] == '"';
    assert s[1] == 'e' && s[2] == 'x' && s[3] == 'p' && s[4] == '"';
    assert n == 3;
    assert role[0] == s[1] && role[1] == s[2] && role[2] == s[3];
    assert role == [role[0], role[1], role[2]];
  }

  lemma RoleSkipped(role: string, rest: string)
    requires '"' !in role && role != "exp" && rest != ""
    ensures Tail("\"" + role + "\"" + ("," + rest), EXP) == Tail(rest, EXP)
  {
    hide Tail;
    var after := "\"" + ("," + rest);
    var s := "\"" + role + "\"" + ("," + rest);
    if EXP <= s { OnlyKeyIsKey(role, "," + rest); }
    assert s == ['"'] + (role + after);
    TailNext('"', role + after, EXP);
    ClearPlain(role, '"', 'e');
    TailClear(role, after, EXP);
    assert after == "\"," + rest;
    assert Clear("\",", rest[0], 'e');
    TailClear("\",", rest, EXP);
  }

  lemma TailNext(c: char, s: string, key: string)
    requires !(key <= [c] + s)
    ensures Tail([c] + s, key) == Tail(s, key)
  {
    assert ([c] + s)[1..] == s;
  }

  lemma PayloadSmall(c: Claims)
    requires SmallChars(c.role)
    ensures SmallChars(Payload(c))
  {
    hide ToText;
    NumberClear(c.id);
    NumberClear(c.exp);
  }

  // ---------------------------------------------------------------- tokens

  /** Validating a fresh token reads the printed payload. */
  lemma MadeIsRead(mac: Mac, c: Claims, now: int)
    requires SmallChars(c.role)
    ensures Validate(mac, MakeToken(mac, c), now) == ReadClaims(Payload(c), now)
  {
    hide Encode; hide Decode; hide Payload; hide ReadClaims; hide AsBytes; hide AsText;
    var (h, p, input) := (Encode(AsBytes(TOKEN_HEADER)), Encode(AsBytes(Payload(c))), SigningInput(c));
    var sig := Encode(mac(input));
    EncodeIs(AsBytes(TOKEN_HEADER));
    EncodeIs(AsBytes(Payload(c)));
    assert MakeToken(mac, c) == h + ['.'] + (p + "." + sig);
    SplitAt(h, '.', p + "." + sig);
    assert p + "." + sig == p + ['.'] + sig;
    SplitAt(p, '.', sig);
    DecodeEncode(AsBytes(Payload(c)));
    PayloadSmall(c);
    TextRoundTrip(Payload(c));
  }

  /** A token is three texts joined by dots: the header and the claims as JSON, and the keyed hash of the two. */
  lemma TokenParts(mac: Mac, c: Claims) returns (h: string, p: string, sig: string)
    ensures MakeToken(mac, c) == h + "." + p + "." + sig
    ensures Decode(h) == AsBytes("{\"alg\":\"HS256\",\"typ\":\"JWT\"}")
    ensures Decode(p) == AsBytes("{\"sub\":" + ToText(c.id) + ",\"role\":\"" + c.role + "\",\"exp\":" + ToText(c.exp)
                                 + "}")
    ensures Decode(sig) == mac(h + "." + p)
  {
    hide Encode; hide Decode; hide AsBytes; hide ToText;
    h, p := Encode(AsBytes(TOKEN_HEADER)), Encode(AsBytes(Payload(c)));
    sig := Encode(mac(h + "." + p));
    DecodeEncode(AsBytes(TOKEN_HEADER));
    DecodeEncode(AsBytes(Payload(c)));
    DecodeEncode(mac(h + "." + p));
    assert Payload(c) == "{\"sub\":" + ToText(c.id) + ",\"role\":\"" + c.role + "\",\"exp\":" + ToText(c.exp) + "}";
  }

  /** The token of some claims validates to exactly these claims, up to and including the second of expiry,
      and to nothing afterwards. */
  ghost predicate RoundTrips(mac: Mac, c: Claims) {
    forall now: int :: Validate(mac, MakeToken(mac, c), now) == if now <= c.exp then Some(c) else None
  }

  /** Tokens round trip, whatever the keyed hash, if and only if the role contains no quotation mark. */
  lemma TokenRoundTripIff(mac: Mac, c: Claims)
    requires SmallChars(c.role)
    ensures RoundTrips(mac, c) <==> '"' !in c.role
  {
    hide Validate; hide MakeToken; hide Payload; hide FindNum; hide FindStr;
    SubFound(c);
    RoleFoundIff(c);
    MadeIsRead(mac, c, c.exp);
    var atExpiry := Validate(mac, MakeToken(mac, c), c.exp);
    if RoundTrips(mac, c) { assert atExpiry == Some(c); }
    if '"' !in c.role {
      ExpFound(c);
      forall now: int ensures Validate(mac, MakeToken(mac, c), now) == if now <= c.exp then Some(c) else None {
        MadeIsRead(mac, c, now);
      }
    }
  }

  lemma {:induction false} SplitJoins(s: string, c: char)
    ensures Split(s, c).Some? ==> s == Split(s, c).value.0 + [c] + Split(s, c).value.1 && c !in Split(s, c).value.0
  {
    if s != "" && s[0] != c {
      SplitJoins(s[1..], c);
      if Split(s[1..], c).Some? {
        var (a, b) := Split(s[1..], c).value;
        assert s == [s[0]] + s[1..];
        assert [s[0]] + (a + [c] + b) == [s[0]] + a + [c] + b;
      }
    }
  }

  /** Whatever validates carries the signature of its own first two parts and has not expired. */
  lemma AcceptedIsSigned(mac: Mac, token: string, now: int)
    requires Validate(mac, token, now).Some?
    ensures Validate(mac, token, now).value.exp >= now
    ensures exists input: string :: token == input + "." + Encode(mac(input))
  {
    hide Encode; hide Decode; hide FindNum; hide FindStr; hide AsText; hide Split;
    var (h, rest) := Split(token, '.').value;
    SplitJoins(token, '.');
    SplitJoins(rest, '.');
    var (p, sig) := Split(rest, '.').value;
    var input := h + "." + p;
    assert token == input + "." + Encode(mac(input));
  }
}
