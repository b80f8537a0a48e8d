/** The MQTT packet codec of server/broker.py (lines 41-84, 313-323, 398-409). */
module MqttCodec {
  import opened Numbers
  import opened Utf8

  datatype Result<+T> = Ok(value: T) | Err(error: CodecError)

  datatype CodecError = IncompleteLength | IncompleteString | BadUtf8 | StringTooLong | MissingField | TooManyFilters

  // ------------------------------------------------------- remaining length

  /** The code of section 2.2.3, least significant seven bits first. */
  function LengthCode(n: nat): (code: Bytes)
    ensures code != []
  {
    if n < 128 then [n] else [n % 128 + 128] + LengthCode(n / 128)
  }

  datatype Length = Length(value: nat, used: nat)

  function LengthOf(data: Bytes): (r: Option<Length>)
    ensures r.Some? ==> 1 <= r.value.used <= |data|
  {
    if data == [] then None
    else if data[0] < 128 then Some(Length(data[0], 1))
    else
      match LengthOf(data[1..])
      case None => None
      case Some(rest) => Some(Length(data[0] - 128 + 128 * rest.value, 1 + rest.used))
  }

  method EncodeRemainingLength(length: nat) returns (out: Bytes)
    ensures out == LengthCode(length)
  {
    out := [];
    var rest := length;
    while true
      invariant LengthCode(length) == out + LengthCode(rest)
      decreases rest
    {
      var digit := rest % 128;
      rest := rest / 128;
      if rest > 0 {
        digit := digit + 128;
      }
      out := out + [digit];
      if rest == 0 { break; }
    }
  }

  lemma LengthOfLow(b: Byte, rest: Bytes)
    requires b < 128
    ensures LengthOf([b] + rest) == Some(Length(b, 1))
  {
  }

  lemma LengthOfHigh(digit: nat, rest: Bytes)
    requires digit < 128
    ensures LengthOf([digit + 128] + rest)
         == match LengthOf(rest)
            case None => None
            case Some(l) => Some(Length(digit + 128 * l.value, 1 + l.used))
  {
    assert ([digit + 128] + rest)[1..] == rest;
  }

  /** The low seven bits of a byte. */
  function SevenBits(b: Byte): nat {
    b % 128
  }

  /** A code whose first bytes have been read: what they add, and the weight of the next one. */
  function Resumed(value: nat, multiplier: nat, used: nat, rest: Option<Length>): Option<Length> {
    match rest
    case None => None
    case Some(l) => Some(Length(value + multiplier * l.value, used + l.used))
  }

  lemma Distribute(value: nat, multiplier: nat, digit: nat, rest: nat)
    ensures value + multiplier * (digit + 128 * rest) == (value + digit * multiplier) + multiplier * 128 * rest
  {
  }

  function Weighted(value: nat, digit: nat, multiplier: nat): nat {
    value + digit * multiplier
  }

  lemma ResumeOnce(value: nat, multiplier: nat, used: nat, digit: nat, l: Length)
    ensures Resumed(value, multiplier, used, Some(Length(digit + 128 * l.value, 1 + l.used)))
         == Resumed(Weighted(value, digit, multiplier), multiplier * 128, used + 1, Some(l))
  {
    Distribute(value, multiplier, digit, l.value);
  }

  lemma ResumeEnds(value: nat, multiplier: nat, used: nat, digit: nat)
    ensures Resumed(value, multiplier, used, Some(Length(digit, 1))) == Some(Length(Weighted(value, digit, multiplier), used + 1))
  {
  }

  lemma ResumeNothing(value: nat, multiplier: nat, used: nat)
    ensures Resumed(value, multiplier, used, None) == None
  {
  }

  lemma LengthOnce(data: Bytes)
    requires data != []
    ensures data[0] < 128 ==> LengthOf(data) == Some(Length(SevenBits(data[0]), 1))
    ensures data[0] >= 128 && LengthOf(data[1..]).None? ==> LengthOf(data) == None
    ensures data[0] >= 128 && LengthOf(data[1..]).Some? ==>
              LengthOf(data) == Some(Length(SevenBits(data[0]) + 128 * LengthOf(data[1..]).value.value,
                                            1 + LengthOf(data[1..]).value.used))
  {
  }

  lemma ResumeStep(value: nat, multiplier: nat, used: nat, data: Bytes)
    requires data != []
    ensures Resumed(value, multiplier, used, LengthOf(data))
         == if data[0] >= 128
            then Resumed(Weighted(value, SevenBits(data[0]), multiplier), multiplier * 128, used + 1, LengthOf(data[1..]))
            else Some(Length(Weighted(value, SevenBits(data[0]), multiplier), used + 1))
  {
    hide LengthOf, Resumed, Weighted, SevenBits;
    var digit := SevenBits(data[0]);
    LengthOnce(data);
    if data[0] < 128 {
      ResumeEnds(value, multiplier, used, digit);
    } else {
      match LengthOf(data[1..])
      case Some(l) =>
        ResumeOnce(value, multiplier, used, digit, l);
      case None =>
        ResumeNothing(value, multiplier, used);
        ResumeNothing(Weighted(value, digit, multiplier), multiplier * 128, used + 1);
    }
  }

  lemma ResumeStart(data: Bytes)
    ensures Resumed(0, 1, 0, LengthOf(data)) == LengthOf(data)
    ensures LengthOf([]) == None && forall v: nat, m: nat, u: nat :: Resumed(v, m, u, None) == None
  {
  }

  method DecodeRemainingLength(data: Bytes, offset: nat) returns (r: Result<Length>)
    ensures r == (if offset <= |data| && LengthOf(data[offset..]).Some? then Ok(LengthOf(data[offset..]).value)
                  else Err(IncompleteLength))
  {
    if offset > |data| { return Err(IncompleteLength); }
    hide LengthOf, Resumed, SevenBits;
    var multiplier: nat, value: nat, idx: nat := 1, 0, offset;
    ResumeStart(data[offset..]);
    while true
      invariant offset <= idx <= |data|
      invariant LengthOf(data[offset..]) == Resumed(value, multiplier, idx - offset, LengthOf(data[idx..]))
      decreases |data| - idx
    {
      if idx >= |data| {
        assert data[idx..] == [];
        return Err(IncompleteLength);
      }
      var encodedByte := data[idx];
      ghost var rest := data[idx..];
      assert rest[0] == encodedByte && rest[1..] == data[idx + 1..];
      ResumeStep(value, multiplier, idx - offset, rest);
      value := value + SevenBits(encodedByte) * multiplier;
      idx := idx + 1;
      if encodedByte < 128 { break; }
      multiplier := multiplier * 128;
    }
    return Ok(Length(value, idx - offset));
  }

  lemma LengthCodeParts(n: nat, suffix: Bytes)
    ensures n < 128 ==> LengthCode(n) + suffix == [n] + suffix && |LengthCode(n)| == 1
    ensures n >= 128 ==> LengthCode(n) + suffix == [n % 128 + 128] + (LengthCode(n / 128) + suffix)
                         && |LengthCode(n)| == 1 + |LengthCode(n / 128)|
  {
    if n >= 128 {
      var rest := LengthCode(n / 128);
      assert LengthCode(n) == [n % 128 + 128] + rest;
      assert [n % 128 + 128] + rest + suffix == [n % 128 + 128] + (rest + suffix);
    }
  }

  /** Every natural number survives the code, whatever bytes follow it. */
  lemma {:induction false} LengthRoundTrip(n: nat, suffix: Bytes)
    ensures LengthOf(LengthCode(n) + suffix) == Some(Length(n, |LengthCode(n)|))
  {
    hide LengthOf, LengthCode;
    LengthCodeParts(n, suffix);
    if n < 128 {
      LengthOfLow(n, suffix);
    } else {
      LengthRoundTrip(n / 128, suffix);
      LengthOfHigh(n % 128, LengthCode(n / 128) + suffix);
    }
  }

  /** No code begins another. */
  lemma LengthCodeIsPrefixFree(m: nat, n: nat)
    requires LengthCode(m) <= LengthCode(n)
    ensures m == n
  {
    LengthRoundTrip(m, LengthCode(n)[|LengthCode(m)|..]);
    LengthRoundTrip(n, []);
    assert LengthCode(n) + [] == LengthCode(n);
    assert LengthCode(m) + LengthCode(n)[|LengthCode(m)|..] == LengthCode(n);
  }

  /** A code that stops early is never read as complete. */
  lemma {:induction false} CutLengthIsIncomplete(n: nat, k: nat)
    requires k < |LengthCode(n)|
    ensures LengthOf(LengthCode(n)[..k]).None?
  {
    if n < 128 || k == 0 {
    } else {
      CutLengthIsIncomplete(n / 128, k - 1);
      assert LengthCode(n)[..k][1..] == LengthCode(n / 128)[..k - 1];
    }
  }

  function Pow128(k: nat): (p: nat)
    ensures p >= 1
  {
    if k == 0 then 1 else 128 * Pow128(k - 1)
  }

  lemma {:induction false} LengthCodeSize(n: nat, k: nat)
    requires k >= 1
    ensures |LengthCode(n)| <= k <==> n < Pow128(k)
  {
    if k == 1 {
      assert Pow128(1) == 128 * Pow128(0);
    } else if n >= 128 {
      LengthCodeSize(n / 128, k - 1);
    } else {
      assert Pow128(k) == 128 * Pow128(k - 1);
    }
  }

  /** The four rows of the size table in section 2.2.3. */
  lemma LengthCodeSizesOfTheStandard(n: nat)
    ensures |LengthCode(n)| == 1 <==> n <= 127
    ensures |LengthCode(n)| == 2 <==> 128 <= n <= 16_383
    ensures |LengthCode(n)| == 3 <==> 16_384 <= n <= 2_097_151
    ensures |LengthCode(n)| == 4 <==> 2_097_152 <= n <= 268_435_455
  {
    LengthCodeSize(n, 1);
    LengthCodeSize(n, 2);
    LengthCodeSize(n, 3);
    LengthCodeSize(n, 4);
    assert Pow128(1) == 128 && Pow128(2) == 16_384 && Pow128(3) == 2_097_152 && Pow128(4) == 268_435_456;
  }

  /** What the decoder accepts beyond the encoder's codes: exactly those that end in a needless zero byte. */
  lemma {:induction false} AcceptedCodeIsMinimal(data: Bytes)
    requires LengthOf(data).Some?
    ensures var l := LengthOf(data).value;
            LengthCode(l.value) == data[..l.used] <==> l.used == 1 || data[l.used - 1] != 0
  {
    if data[0] < 128 {
    } else {
      var rest := LengthOf(data[1..]).value;
      var l := LengthOf(data).value;
      AcceptedCodeIsMinimal(data[1..]);
      assert data[..l.used] == [data[0]] + data[1..][..rest.used];
      if rest.value == 0 {
        ZeroOnlyFromZeros(data[1..]);
      } else {
        assert l.value / 128 == rest.value && l.value % 128 + 128 == data[0];
        assert LengthCode(l.value) == [data[0]] + LengthCode(rest.value);
        assert LengthCode(l.value)[1..] == LengthCode(rest.value);
        assert data[..l.used][1..] == data[1..][..rest.used];
      }
    }
  }

  lemma {:induction false} ZeroOnlyFromZeros(data: Bytes)
    requires LengthOf(data).Some? && LengthOf(data).value.value == 0
    ensures data[LengthOf(data).value.used - 1] == 0
  {
    if data[0] < 128 {
    } else {
      ZeroOnlyFromZeros(data[1..]);
    }
  }

  /** The decoder takes a fifth byte, which section 2.2.3 forbids. */
  lemma FiveByteLengthIsAccepted()
    ensures LengthOf([0x80, 0x80, 0x80, 0x80, 0x01]) == Some(Length(268_435_456, 5))
  {
    LengthRoundTrip(268_435_456, []);
    assert LengthCode(2_097_152) == [0x80] + LengthCode(16_384);
    assert LengthCode(16_384) == [0x80] + LengthCode(128);
    assert LengthCode(128) == [0x80, 0x01];
    assert LengthCode(268_435_456) + [] == [0x80, 0x80, 0x80, 0x80, 0x01];
  }

  // ----------------------------------------------------------------- strings

  function EncodeShort(n: nat): Bytes
    requires n < 65_536
  {
    [n / 256, n % 256]
  }

  function ShortAt(data: Bytes, offset: nat): nat
    requires offset + 2 <= |data|
  {
    data[offset] as int * 256 + data[offset + 1] as int
  }

  /** Two bytes of length, then UTF-8; longer strings do not pack. */
  function EncodeString(s: string): Result<Bytes> {
    var encoded := Encode(s);
    if |encoded| < 65_536 then Ok(EncodeShort(|encoded|) + encoded) else Err(StringTooLong)
  }

  datatype Parsed = Parsed(text: string, end: nat)

  function DecodeString(data: Bytes, offset: nat): (r: Result<Parsed>)
    ensures r.Ok? ==> offset + 2 <= r.value.end <= |data|
  {
    if offset + 2 > |data| then Err(IncompleteString)
    else if offset + 2 + ShortAt(data, offset) > |data| then Err(IncompleteString)
    else
      var end := offset + 2 + ShortAt(data, offset);
      match Decode(data[offset + 2..end])
      case None => Err(BadUtf8)
      case Some(s) => Ok(Parsed(s, end))
  }

  lemma StringFieldRoundTrip(before: Bytes, s: string, after: Bytes)
    requires EncodeString(s).Ok?
    ensures DecodeString(before + EncodeString(s).value + after, |before|)
         == Ok(Parsed(s, |before| + |EncodeString(s).value|))
  {
    hide Decode, Encode;
    var field := EncodeString(s).value;
    var data := before + field + after;
    assert data[|before|..|before| + |field|] == field;
    assert data[|before|] == field[0] && data[|before| + 1] == field[1];
    assert data[|before| + 2..|before| + |field|] == field[2..];
    StringRoundTrip(s);
  }

  lemma ShortIsStrict(data: Bytes, offset: nat)
    requires offset + 2 <= |data|
    ensures ShortAt(data, offset) < 65_536 && EncodeShort(ShortAt(data, offset)) == [data[offset], data[offset + 1]]
  {
    var high: nat, low: nat := data[offset], data[offset + 1];
    assert (high * 256 + low) / 256 == high && (high * 256 + low) % 256 == low;
  }

  /** A string field that decodes is the only encoding of its string. */
  lemma StringFieldIsStrict(data: Bytes, offset: nat)
    requires DecodeString(data, offset).Ok?
    ensures var p := DecodeString(data, offset).value;
            EncodeString(p.text) == Ok(data[offset..p.end])
  {
    var p := DecodeString(data, offset).value;
    var field := data[offset..p.end];
    assert field == [data[offset], data[offset + 1]] + data[offset + 2..p.end];
    assert Encode(p.text) == data[offset + 2..p.end] by { DecodeIsStrict(data[offset + 2..p.end]); }
    hide Decode, Encode, ShortAt, EncodeShort;
    ShortIsStrict(data, offset);
  }

  // ----------------------------------------------------------------- PUBLISH

  type QoS = q: int | 0 <= q < 4
  type PacketId = n: int | 0 <= n < 65_536

  const PUBLISH := 3

  /** The body of a PUBLISH packet: topic, packet id when there is one, payload. */
  function PublishBody(topic: string, payload: Bytes, qos: QoS, packetId: PacketId): Result<Bytes> {
    match EncodeString(topic)
    case Err(e) => Err(e)
    case Ok(field) => Ok(field + (if qos > 0 then EncodeShort(packetId) else []) + payload)
  }

  /** The platform sends packet id 0; a client sends its own counter. */
  function BuildPublish(topic: string, payload: Bytes, qos: QoS, packetId: PacketId): Result<Bytes> {
    match PublishBody(topic, payload, qos, packetId)
    case Err(e) => Err(e)
    case Ok(body) => Ok([PUBLISH * 16 + qos * 2] + LengthCode(|body|) + body)
  }

  datatype Message = Message(topic: string, qos: QoS, packetId: Option<PacketId>, payload: Bytes)

  function ParsePublish(flags: nat, body: Bytes): Result<Message> {
    match DecodeString(body, 0)
    case Err(e) => Err(e)
    case Ok(p) =>
      var qos := flags / 2 % 4;
      if qos == 0 then Ok(Message(p.text, qos, None, body[p.end..]))
      else if p.end + 2 > |body| then Err(MissingField)
      else Ok(Message(p.text, qos, Some(ShortAt(body, p.end)), body[p.end + 2..]))
  }

  /** A body parses back to the topic, quality of service, packet id and payload it was built from. */
  lemma PublishRoundTrip(topic: string, payload: Bytes, qos: QoS, packetId: PacketId)
    requires PublishBody(topic, payload, qos, packetId).Ok?
    ensures ParsePublish(qos * 2, PublishBody(topic, payload, qos, packetId).value)
         == Ok(Message(topic, qos, if qos > 0 then Some(packetId) else None, payload))
  {
    hide DecodeString, EncodeString;
    var field := EncodeString(topic).value;
    var id := if qos > 0 then EncodeShort(packetId) else [];
    var body := PublishBody(topic, payload, qos, packetId).value;
    StringFieldRoundTrip([], topic, id + payload);
    assert [] + field + (id + payload) == body;
    assert body[|field| + |id|..] == payload;
    if qos > 0 {
      assert body[|field|] == id[0] && body[|field| + 1] == id[1];
    }
  }

  /** A body that parses is rebuilt byte for byte from what was parsed. */
  lemma ParseIsStrict(flags: nat, body: Bytes)
    requires ParsePublish(flags, body).Ok?
    ensures var m := ParsePublish(flags, body).value;
            && (m.packetId.Some? <==> m.qos > 0)
            && PublishBody(m.topic, m.payload, m.qos, if m.packetId.Some? then m.packetId.value else 0) == Ok(body)
  {
    hide DecodeString, EncodeString;
    var p := DecodeString(body, 0).value;
    StringFieldIsStrict(body, 0);
    assert p.end + 2 <= |body| ==> EncodeShort(ShortAt(body, p.end)) == [body[p.end], body[p.end + 1]] by {
      if p.end + 2 <= |body| {
        ShortIsStrict(body, p.end);
      }
    }
    hide EncodeShort;
    assert body[..p.end] == body[0..p.end];
    if flags / 2 % 4 > 0 {
      assert [body[p.end], body[p.end + 1]] == body[p.end..p.end + 2];
      assert body == body[..p.end] + body[p.end..p.end + 2] + body[p.end + 2..];
    } else {
      assert body == body[..p.end] + [] + body[p.end..];
    }
  }

  /** Forwarding a parsed message never fails, keeps topic and payload, and lowers the quality of service to at most 1. */
  lemma ForwardingKeepsTheMessage(flags: nat, body: Bytes)
    requires ParsePublish(flags, body).Ok?
    ensures var m := ParsePublish(flags, body).value;
            && BuildPublish(m.topic, m.payload, Min(m.qos, 1), 0).Ok?
            && PublishBody(m.topic, m.payload, Min(m.qos, 1), 0).Ok?
            && ParsePublish(Min(m.qos, 1) * 2, PublishBody(m.topic, m.payload, Min(m.qos, 1), 0).value)
            == Ok(Message(m.topic, Min(m.qos, 1), if m.qos > 0 then Some(0) else None, m.payload))
  {
    var m := ParsePublish(flags, body).value;
    ParseIsStrict(flags, body);
    PublishRoundTrip(m.topic, m.payload, Min(m.qos, 1), 0);
  }
}
