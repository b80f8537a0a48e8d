/** UTF-8 (RFC 3629), as Python's strict codec and section 1.5.3 of MQTT 3.1.1 read it. */
module Utf8 {
  import opened Numbers

  type Byte = b: int | 0 <= b < 256
  type Bytes = seq<Byte>

  function EncodeChar(c: char): (b: Bytes)
    ensures 1 <= |b| <= 4
  {
    var n := c as int;
    if n < 0x80 then [n]
    else if n < 0x800 then [0xC0 + n / 64, 0x80 + n % 64]
    else if n < 0x1_0000 then [0xE0 + n / 64 / 64, 0x80 + n / 64 % 64, 0x80 + n % 64]
    else [0xF0 + n / 64 / 64 / 64, 0x80 + n / 64 / 64 % 64, 0x80 + n / 64 % 64, 0x80 + n % 64]
  }

  predicate Tail(b: Byte) {
    0x80 <= b < 0xC0
  }

  datatype Decoded = Decoded(c: char, used: nat)

  /** Append six bits. */
  function Join(high: nat, low: nat): (n: nat)
    requires low < 64
    ensures n / 64 == high && n % 64 == low
    ensures high < 32 ==> n < 0x800
    ensures high < 0x400 ==> n < 0x1_0000
  {
    high * 64 + low
  }

  /** The first character; overlong forms, surrogates and numbers beyond Unicode are refused. */
  function DecodeChar(b: Bytes): (r: Option<Decoded>)
    requires b != []
    ensures r.Some? ==> 1 <= r.value.used <= |b|
  {
    if b[0] < 0x80 then Some(Decoded(b[0] as char, 1))
    else if 0xC0 <= b[0] < 0xE0 && |b| >= 2 && Tail(b[1]) then
      var n := Join(b[0] - 0xC0, b[1] - 0x80);
      if n >= 0x80 then Some(Decoded(n as char, 2)) else None
    else if 0xE0 <= b[0] < 0xF0 && |b| >= 3 && Tail(b[1]) && Tail(b[2]) then
      var n := Join(Join(b[0] - 0xE0, b[1] - 0x80), b[2] - 0x80);
      if n >= 0x800 && !(0xD800 <= n < 0xE000) then Some(Decoded(n as char, 3)) else None
    else if 0xF0 <= b[0] && |b| >= 4 && Tail(b[1]) && Tail(b[2]) && Tail(b[3]) then
      var n := Join(Join(Join(b[0] - 0xF0, b[1] - 0x80), b[2] - 0x80), b[3] - 0x80);
      if 0x1_0000 <= n < 0x11_0000 then Some(Decoded(n as char, 4)) else None
    else None
  }

  function Encode(s: string): Bytes {
    if s == "" then [] else EncodeChar(s[0]) + Encode(s[1..])
  }

  function Decode(b: Bytes): Option<string> {
    if b == [] then Some("")
    else
      match DecodeChar(b)
      case None => None
      case Some(first) =>
        match Decode(b[first.used..])
        case None => None
        case Some(rest) => Some([first.c] + rest)
  }

  lemma CharRoundTrip(c: char, rest: Bytes)
    ensures DecodeChar(EncodeChar(c) + rest) == Some(Decoded(c, |EncodeChar(c)|))
  {
  }

  lemma CharIsStrict(b: Bytes)
    requires b != [] && DecodeChar(b).Some?
    ensures EncodeChar(DecodeChar(b).value.c) == b[..DecodeChar(b).value.used]
  {
  }

  /** The examples of RFC 3629: one, two, three and four bytes. */
  lemma KnownCharacters()
    ensures EncodeChar('A') == [0x41]
    ensures EncodeChar('\U{391}') == [0xCE, 0x91]
    ensures EncodeChar('\U{2262}') == [0xE2, 0x89, 0xA2]
    ensures EncodeChar('\U{233B4}') == [0xF0, 0xA3, 0x8E, 0xB4]
  {
  }

  lemma {:induction false} StringRoundTrip(s: string)
    ensures Decode(Encode(s)) == Some(s)
  {
    if s == "" {
    } else {
      CharRoundTrip(s[0], Encode(s[1..]));
      StringRoundTrip(s[1..]);
      assert Encode(s)[|EncodeChar(s[0])|..] == Encode(s[1..]);
      assert s == [s[0]] + s[1..];
    }
  }

  lemma DecodeSplits(b: Bytes)
    requires b != [] && Decode(b).Some?
    ensures DecodeChar(b).Some? && Decode(b[DecodeChar(b).value.used..]).Some?
    ensures Decode(b).value == [DecodeChar(b).value.c] + Decode(b[DecodeChar(b).value.used..]).value
  {
  }

  lemma Rejoin(b: Bytes, k: nat, head: Bytes, tail: Bytes)
    requires k <= |b| && head == b[..k] && tail == b[k..]
    ensures head + tail == b
  {
  }

  lemma EncodeJoins(c: char, rest: string)
    ensures Encode([c] + rest) == EncodeChar(c) + Encode(rest)
  {
  }

  /** Exactly one byte string decodes to each string. */
  lemma {:induction false} DecodeIsStrict(b: Bytes)
    requires Decode(b).Some?
    ensures Encode(Decode(b).value) == b
    decreases |b|
  {
    if b == [] {
    } else {
      hide Encode, Decode, EncodeChar, DecodeChar;
      DecodeSplits(b);
      var first := DecodeChar(b).value;
      var rest := Decode(b[first.used..]).value;
      CharIsStrict(b);
      DecodeIsStrict(b[first.used..]);
      EncodeJoins(first.c, rest);
      Rejoin(b, first.used, EncodeChar(first.c), Encode(rest));
    }
  }
}
