/** One client connection of server/broker.py: the read loop over a byte stream that arrives in arbitrary chunks. */
module MqttStream {
  import opened Numbers
  import opened Utf8
  import opened MqttCodec

  const PUBACK := 4
  const SUBSCRIBE := 8
  const SUBACK := 9
  const UNSUBSCRIBE := 10
  const UNSUBACK := 11
  const PINGREQ := 12
  const PINGRESP := 13
  const DISCONNECT := 14

  datatype Frame = Frame(kind: nat, flags: nat, body: Bytes)

  datatype Cut = NoMore | Partial | Whole(frame: Frame, rest: Bytes)

  /** The first frame of a byte string: type and flags, remaining length, body. */
  function CutFrame(data: Bytes): (r: Cut)
    ensures r.Whole? ==> |r.rest| < |data|
  {
    if data == [] then NoMore
    else
      match LengthOf(data[1..])
      case None => Partial
      case Some(l) =>
        var start := 1 + l.used;
        if start + l.value > |data| then Partial
        else Whole(Frame(data[0] / 16, data[0] % 16, data[start..start + l.value]), data[start + l.value..])
  }

  // -------------------------------------------------------- packets and replies

  datatype Grant = Grant(topicFilter: string, qos: nat)

  datatype Packet =
    | Publish(message: Message)
    | Subscribe(subscribeId: PacketId, grants: seq<Grant>)
    | Unsubscribe(unsubscribeId: PacketId, filters: seq<string>)
    | Ping
    | Ignored(kind: nat)

  function ParseGrants(body: Bytes, offset: nat): Result<seq<Grant>>
    decreases |body| - offset
  {
    if offset >= |body| then Ok([])
    else
      match DecodeString(body, offset)
      case Err(e) => Err(e)
      case Ok(p) =>
        if p.end >= |body| then Err(MissingField)
        else
          match ParseGrants(body, p.end + 1)
          case Err(e) => Err(e)
          case Ok(rest) => Ok([Grant(p.text, Min(body[p.end], 1))] + rest)
  }

  function ParseFilters(body: Bytes, offset: nat): Result<seq<string>>
    decreases |body| - offset
  {
    if offset >= |body| then Ok([])
    else
      match DecodeString(body, offset)
      case Err(e) => Err(e)
      case Ok(p) =>
        match ParseFilters(body, p.end)
        case Err(e) => Err(e)
        case Ok(rest) => Ok([p.text] + rest)
  }

  function ParsePacket(f: Frame): Result<Packet> {
    if f.kind == PUBLISH then
      match ParsePublish(f.flags, f.body)
      case Err(e) => Err(e)
      case Ok(m) => Ok(Publish(m))
    else if f.kind == SUBSCRIBE then
      if |f.body| < 2 then Err(MissingField)
      else
        match ParseGrants(f.body, 2)
        case Err(e) => Err(e)
        case Ok(grants) => if |grants| <= 253 then Ok(Subscribe(ShortAt(f.body, 0), grants)) else Err(TooManyFilters)
    else if f.kind == UNSUBSCRIBE then
      if |f.body| < 2 then Err(MissingField)
      else
        match ParseFilters(f.body, 2)
        case Err(e) => Err(e)
        case Ok(filters) => Ok(Unsubscribe(ShortAt(f.body, 0), filters))
    else if f.kind == PINGREQ then Ok(Ping)
    else Ok(Ignored(f.kind))
  }

  function Levels(grants: seq<Grant>): (r: Bytes)
    ensures |r| == |grants|
  {
    seq(|grants|, i requires 0 <= i < |grants| => if grants[i].qos == 0 then 0 else 1)
  }

  /** The length of a SUBACK is written as one byte. */
  function Suback(id: PacketId, grants: seq<Grant>): Bytes
    requires |grants| <= 253
  {
    [SUBACK * 16, 2 + |grants|] + EncodeShort(id) + Levels(grants)
  }

  /** What the broker writes back to the sender of a packet. */
  function Reply(p: Packet): Bytes {
    match p
    case Publish(m) => if m.qos == 1 && m.packetId.Some? then [PUBACK * 16, 2] + EncodeShort(m.packetId.value) else []
    case Subscribe(id, grants) => if |grants| <= 253 then Suback(id, grants) else []
    case Unsubscribe(id, _) => [UNSUBACK * 16, 2] + EncodeShort(id)
    case Ping => [PINGRESP * 16, 0]
    case Ignored(_) => []
  }

  datatype Ending = EndOfStream | Disconnected | Truncated | Malformed(error: CodecError)

  /** What one connection comes to: the packets handled in order, the bytes sent back, and how it ended. */
  datatype Session = Session(packets: seq<Packet>, sent: Bytes, ending: Ending)

  function Before(packets: seq<Packet>, sent: Bytes, later: Session): Session {
    Session(packets + later.packets, sent + later.sent, later.ending)
  }

  function Serve(data: Bytes): Session
    decreases |data|
  {
    match CutFrame(data)
    case NoMore => Session([], [], EndOfStream)
    case Partial => Session([], [], Truncated)
    case Whole(f, rest) =>
      if f.kind == DISCONNECT then Session([], [], Disconnected)
      else
        match ParsePacket(f)
        case Err(e) => Session([], [], Malformed(e))
        case Ok(p) => Before([p], Reply(p), Serve(rest))
  }

  // ------------------------------------------------------------ the read loop

  /** A stream that hands out at least one byte a read until it ends; `sizes` says how many each read finds. */
  class StreamReader {
    var rest: Bytes
    var sizes: seq<nat>

    constructor (data: Bytes, sizes: seq<nat>)
      ensures rest == data && this.sizes == sizes
    {
      rest, this.sizes := data, sizes;
    }

    method Read(n: nat) returns (chunk: Bytes)
      requires n > 0
      modifies this
      ensures chunk + rest == old(rest) && |chunk| <= n
      ensures chunk == [] <==> old(rest) == []
    {
      var ready := if sizes == [] then n else sizes[0];
      var k := Min(|rest|, Max(1, Min(ready, n)));
      chunk, rest := rest[..k], rest[k..];
      sizes := if sizes == [] then [] else sizes[1..];
    }

    method ReadExact(n: nat) returns (data: Option<Bytes>)
      modifies this
      ensures data == if n <= |old(rest)| then Some(old(rest)[..n]) else None
      ensures n <= |old(rest)| ==> rest == old(rest)[n..]
    {
      var got := [];
      while |got| < n
        invariant got + rest == old(rest) && |got| <= n
      {
        var chunk := Read(n - |got|);
        if chunk == [] { return None; }
        got := got + chunk;
      }
      return Some(got);
    }

    /** The bytes of a remaining length, up to the first without its top bit. */
    method ReadLength() returns (code: Option<Bytes>)
      modifies this
      ensures code.Some? <==> LengthOf(old(rest)).Some?
      ensures code.Some? ==> code.value + rest == old(rest) && LengthOf(code.value) == LengthOf(old(rest))
                             && LengthOf(old(rest)).value.used == |code.value|
    {
      var got := [];
      while true
        invariant got + rest == old(rest)
        invariant forall i :: 0 <= i < |got| ==> got[i] >= 128
        decreases |rest|
      {
        var b := Read(1);
        if b == [] {
          assert got == old(rest);
          OpenLength(got);
          return None;
        }
        assert got + b + rest == old(rest);
        got := got + b;
        if b[0] < 128 { break; }
      }
      ClosedLength(got, rest);
      return Some(got);
    }

    /** The rest of a frame whose first byte has been read. */
    method ReadFrame(first: Byte) returns (frame: Option<Frame>)
      modifies this
      ensures frame.None? ==> CutFrame([first] + old(rest)) == Partial
      ensures frame.Some? ==> CutFrame([first] + old(rest)) == Whole(frame.value, rest)
    {
      hide LengthOf, CutFrame;
      ghost var data := rest;
      CutNeedsLength(first, data);
      var code := ReadLength();
      if code.None? { return None; }
      var length := DecodeRemainingLength(code.value, 0);
      assert code.value[0..] == code.value;
      CutAfterLength([first] + data, first, code.value, length.value.value, rest);
      var body := ReadExact(length.value.value);
      if body.None? { return None; }
      return Some(Frame(first / 16, first % 16, body.value));
    }

    method ReadLoop() returns (session: Session)
      modifies this
      ensures session == Serve(old(rest))
    {
      hide CutFrame, ParsePacket, Reply, Before;
      session := Session([], [], EndOfStream);
      BeforeNothing(Serve(rest));
      while true
        invariant session.ending == EndOfStream
        invariant Serve(old(rest)) == Before(session.packets, session.sent, Serve(rest))
        decreases |rest|
      {
        ghost var data := rest;
        var header := Read(1);
        EndsHere(session, data);
        if header == [] { return session; }
        assert data == [header[0]] + rest;
        var frame := ReadFrame(header[0]);
        if frame.None? { return session.(ending := Truncated); }
        if frame.value.kind == DISCONNECT { return session.(ending := Disconnected); }
        var packet := ParsePacket(frame.value);
        if packet.Err? { return session.(ending := Malformed(packet.error)); }
        BeforeBefore(session.packets, session.sent, [packet.value], Reply(packet.value), Serve(rest));
        session := Session(session.packets + [packet.value], session.sent + Reply(packet.value), session.ending);
      }
    }
  }

  lemma BeforeNothing(s: Session)
    ensures Before([], [], s) == s
  {
  }

  lemma BeforeBefore(packets: seq<Packet>, sent: Bytes, more: seq<Packet>, moreSent: Bytes, s: Session)
    ensures Before(packets, sent, Before(more, moreSent, s)) == Before(packets + more, sent + moreSent, s)
  {
    assert packets + (more + s.packets) == packets + more + s.packets;
    assert sent + (moreSent + s.sent) == sent + moreSent + s.sent;
  }

  lemma EndsHere(session: Session, data: Bytes)
    requires session.ending == EndOfStream
    ensures forall e :: Before(session.packets, session.sent, Session([], [], e)) == session.(ending := e)
    ensures data == [] ==> Serve(data) == Session([], [], EndOfStream)
    ensures data != [] ==> !CutFrame(data).NoMore?
  {
  }

  lemma {:induction false} OpenLength(data: Bytes)
    requires forall i :: 0 <= i < |data| ==> data[i] >= 128
    ensures LengthOf(data).None?
  {
    if data == [] {
    } else {
      OpenLength(data[1..]);
    }
  }

  lemma {:induction false} ClosedLength(code: Bytes, suffix: Bytes)
    requires code != [] && code[|code| - 1] < 128 && forall i :: 0 <= i < |code| - 1 ==> code[i] >= 128
    ensures LengthOf(code).Some? && LengthOf(code + suffix) == LengthOf(code) && LengthOf(code).value.used == |code|
  {
    if |code| <= 1 {
    } else {
      ClosedLength(code[1..], suffix);
      assert (code + suffix)[1..] == code[1..] + suffix;
    }
  }

  // --------------------------------------------------------- what clients send

  /** The two packets a client builds once it is connected. */
  datatype Outgoing =
    | PublishOut(topic: string, payload: Bytes, qos: QoS, packetId: PacketId)
    | SubscribeOut(topic: string, level: Byte, packetId: PacketId)
  {
    predicate Sendable() {
      EncodeString(topic).Ok?
    }

    function Body(): Bytes
      requires Sendable()
    {
      if PublishOut? then PublishBody(topic, payload, qos, packetId).value
      else EncodeShort(packetId) + EncodeString(topic).value + [level]
    }

    function FirstByte(): Byte {
      if PublishOut? then PUBLISH * 16 + qos * 2 else SUBSCRIBE * 16 + 2
    }

    function Wired(): Bytes
      requires Sendable()
    {
      [FirstByte()] + LengthCode(|Body()|) + Body()
    }

    /** What the broker should make of it. */
    function Meant(): Packet {
      if PublishOut? then Publish(Message(topic, qos, if qos > 0 then Some(packetId) else None, payload))
      else Subscribe(packetId, [Grant(topic, Min(level, 1))])
    }
  }

  predicate AllSendable(list: seq<Outgoing>) {
    forall i :: 0 <= i < |list| ==> list[i].Sendable()
  }

  function Wire(list: seq<Outgoing>): Bytes
    requires AllSendable(list)
  {
    if list == [] then [] else list[0].Wired() + Wire(list[1..])
  }

  function Meanings(list: seq<Outgoing>): seq<Packet> {
    if list == [] then [] else [list[0].Meant()] + Meanings(list[1..])
  }

  function Replies(list: seq<Packet>): Bytes {
    if list == [] then [] else Reply(list[0]) + Replies(list[1..])
  }

  lemma CutNeedsLength(first: Byte, data: Bytes)
    ensures LengthOf(data).None? ==> CutFrame([first] + data) == Partial
  {
    assert ([first] + data)[1..] == data;
  }

  lemma SlicesAfter(data: Bytes, first: Byte, code: Bytes, rest: Bytes)
    requires data == [first] + (code + rest)
    ensures data[0] == first && data[1..] == code + rest && data[1 + |code|..] == rest
  {
  }

  lemma SlicesWithin(data: Bytes, start: nat, n: nat, rest: Bytes)
    requires start <= |data| && rest == data[start..] && n <= |rest|
    ensures data[start..start + n] == rest[..n] && data[start + n..] == rest[n..]
  {
  }

  lemma CutAfterLength(data: Bytes, first: Byte, code: Bytes, n: nat, rest: Bytes)
    requires data == [first] + (code + rest)
    requires LengthOf(code + rest) == Some(Length(n, |code|))
    ensures CutFrame(data)
         == if |rest| < n then Partial else Whole(Frame(first / 16, first % 16, rest[..n]), rest[n..])
  {
    hide LengthOf;
    SlicesAfter(data, first, code, rest);
    if n <= |rest| {
      SlicesWithin(data, 1 + |code|, n, rest);
    }
  }

  lemma Regroup(a: Bytes, b: Bytes, c: Bytes, d: Bytes)
    ensures a + b + c + d == a + (b + (c + d))
  {
  }

  lemma CutOfFrame(first: Byte, body: Bytes, tail: Bytes)
    ensures CutFrame([first] + LengthCode(|body|) + body + tail) == Whole(Frame(first / 16, first % 16, body), tail)
  {
    hide CutFrame, LengthOf, LengthCode;
    var code := LengthCode(|body|);
    var rest := body + tail;
    LengthRoundTrip(|body|, rest);
    Regroup([first], code, body, tail);
    CutAfterLength([first] + code + body + tail, first, code, |body|, rest);
    assert rest[..|body|] == body && rest[|body|..] == tail;
  }

  /** Any body under any type and flags is cut out again as it was framed, whatever follows. */
  lemma FrameRoundTrip(kind: nat, flags: nat, body: Bytes, tail: Bytes)
    requires kind < 16 && flags < 16
    ensures CutFrame([kind * 16 + flags] + LengthCode(|body|) + body + tail) == Whole(Frame(kind, flags, body), tail)
  {
    hide CutFrame, LengthCode;
    assert (kind * 16 + flags) / 16 == kind && (kind * 16 + flags) % 16 == flags;
    CutOfFrame(kind * 16 + flags, body, tail);
  }

  /** What the broker sends on is one frame, read as the topic, quality of service and payload it was given. */
  lemma BuiltPublishIsRead(topic: string, payload: Bytes, qos: QoS, packetId: PacketId, tail: Bytes)
    requires BuildPublish(topic, payload, qos, packetId).Ok?
    ensures var body := PublishBody(topic, payload, qos, packetId).value;
            && CutFrame(BuildPublish(topic, payload, qos, packetId).value + tail)
               == Whole(Frame(PUBLISH, 2 * qos, body), tail)
            && ParsePacket(Frame(PUBLISH, 2 * qos, body))
               == Ok(Publish(Message(topic, qos, if qos > 0 then Some(packetId) else None, payload)))
  {
    hide CutFrame, PublishBody, LengthCode, ParsePublish;
    FrameRoundTrip(PUBLISH, 2 * qos, PublishBody(topic, payload, qos, packetId).value, tail);
    PublishRoundTrip(topic, payload, qos, packetId);
  }

  lemma SubscribeMeaning(topic: string, level: Byte, id: PacketId)
    requires EncodeString(topic).Ok?
    ensures ParsePacket(Frame(SUBSCRIBE, 2, EncodeShort(id) + EncodeString(topic).value + [level]))
         == Ok(Subscribe(id, [Grant(topic, Min(level, 1))]))
  {
    var field := EncodeString(topic).value;
    var body := EncodeShort(id) + field + [level];
    StringFieldRoundTrip(EncodeShort(id), topic, [level]);
    assert body[2 + |field|] == level;
    assert ParseGrants(body, 2 + |field| + 1) == Ok([]);
    assert [Grant(topic, Min(level, 1))] + [] == [Grant(topic, Min(level, 1))];
    assert body[0] == id / 256 && body[1] == id % 256;
  }

  lemma MeaningOfBody(m: Outgoing)
    requires m.Sendable()
    ensures ParsePacket(Frame(m.FirstByte() / 16, m.FirstByte() % 16, m.Body())) == Ok(m.Meant())
  {
    hide ParsePublish, EncodeString, EncodeShort, ParseGrants;
    if m.PublishOut? {
      PublishRoundTrip(m.topic, m.payload, m.qos, m.packetId);
    } else {
      SubscribeMeaning(m.topic, m.level, m.packetId);
    }
  }

  lemma ServeOne(m: Outgoing, tail: Bytes)
    requires m.Sendable()
    ensures Serve(m.Wired() + tail) == Before([m.Meant()], Reply(m.Meant()), Serve(tail))
  {
    hide ParsePacket, CutFrame, Reply, LengthCode;
    CutOfFrame(m.FirstByte(), m.Body(), tail);
    MeaningOfBody(m);
  }

  /** Any list of client packets is served as exactly that list, one reply each, and then whatever follows is served. */
  lemma {:induction false} StreamRoundTrip(list: seq<Outgoing>, tail: Bytes)
    requires AllSendable(list)
    ensures Serve(Wire(list) + tail) == Before(Meanings(list), Replies(Meanings(list)), Serve(tail))
  {
    if list == [] {
      assert [] + tail == tail;
    } else {
      hide Serve, Reply, Before, Wire, EncodeString, LengthCode, Replies, Meanings;
      ServeOne(list[0], Wire(list[1..]) + tail);
      StreamRoundTrip(list[1..], tail);
      WireFrom(list, tail);
      BeforeBefore([list[0].Meant()], Reply(list[0].Meant()), Meanings(list[1..]), Replies(Meanings(list[1..])), Serve(tail));
    }
  }

  lemma WireFrom(list: seq<Outgoing>, tail: Bytes)
    requires AllSendable(list) && list != []
    ensures Wire(list) + tail == list[0].Wired() + (Wire(list[1..]) + tail)
    ensures Meanings(list) == [list[0].Meant()] + Meanings(list[1..])
    ensures Replies(Meanings(list)) == Reply(list[0].Meant()) + Replies(Meanings(list[1..]))
  {
    assert Meanings(list)[1..] == Meanings(list[1..]);
  }

  lemma CutOfPart(first: Byte, body: Bytes, k: nat)
    requires 0 < k < |[first] + LengthCode(|body|) + body|
    ensures CutFrame(([first] + LengthCode(|body|) + body)[..k]) == Partial
  {
    var code := LengthCode(|body|);
    var part := ([first] + code + body)[..k];
    if k - 1 < |code| {
      CutLengthIsIncomplete(|body|, k - 1);
      assert part[1..] == code[..k - 1];
    } else {
      hide CutFrame, LengthOf, LengthCode;
      var rest := body[..k - 1 - |code|];
      LengthRoundTrip(|body|, rest);
      assert part == [first] + (code + rest);
      CutAfterLength(part, first, code, |body|, rest);
    }
  }

  /** A stream that breaks off inside a packet delivers the packets before it and nothing of the last. */
  lemma BrokenStreamDeliversWholePackets(list: seq<Outgoing>, last: Outgoing, k: nat)
    requires AllSendable(list) && last.Sendable() && k < |last.Wired()|
    ensures Serve(Wire(list) + last.Wired()[..k])
         == Session(Meanings(list), Replies(Meanings(list)), if k == 0 then EndOfStream else Truncated)
  {
    StreamRoundTrip(list, last.Wired()[..k]);
    if k > 0 {
      CutOfPart(last.FirstByte(), last.Body(), k);
    }
  }

  /** After the client's DISCONNECT nothing more is read. */
  lemma DisconnectEndsTheSession(list: seq<Outgoing>, tail: Bytes)
    requires AllSendable(list)
    ensures Serve(Wire(list) + [0xE0, 0x00] + tail) == Session(Meanings(list), Replies(Meanings(list)), Disconnected)
  {
    CutOfFrame(0xE0, [], tail);
    assert [0xE0] + LengthCode(0) + [] + tail == [0xE0, 0x00] + tail;
    StreamRoundTrip(list, [0xE0, 0x00] + tail);
    assert Wire(list) + [0xE0, 0x00] + tail == Wire(list) + ([0xE0, 0x00] + tail);
  }

  /** A frame that does not parse ends the session where it stands; what follows is not read. */
  lemma MalformedEndsTheSession(list: seq<Outgoing>, data: Bytes, frame: Frame, rest: Bytes)
    requires AllSendable(list) && CutFrame(data) == Whole(frame, rest)
    requires frame.kind != DISCONNECT && ParsePacket(frame).Err?
    ensures Serve(Wire(list) + data)
         == Session(Meanings(list), Replies(Meanings(list)), Malformed(ParsePacket(frame).error))
  {
    StreamRoundTrip(list, data);
  }

  /** Packets of other kinds are passed over. */
  lemma OtherKindsArePassedOver(data: Bytes, frame: Frame, rest: Bytes)
    requires CutFrame(data) == Whole(frame, rest)
    requires frame.kind !in {PUBLISH, SUBSCRIBE, UNSUBSCRIBE, PINGREQ, DISCONNECT}
    ensures Serve(data) == Session([Ignored(frame.kind)] + Serve(rest).packets, Serve(rest).sent, Serve(rest).ending)
  {
    assert [] + Serve(rest).sent == Serve(rest).sent;
  }

  /** The answer to a SUBSCRIBE is one well-formed frame exactly when it grants at most 125 filters. */
  lemma SubackFrames(id: PacketId, grants: seq<Grant>)
    requires |grants| <= 253
    ensures CutFrame(Suback(id, grants)) == Whole(Frame(SUBACK, 0, EncodeShort(id) + Levels(grants)), [])
       <==> |grants| <= 125
  {
    var body := EncodeShort(id) + Levels(grants);
    if |grants| <= 125 {
      CutOfFrame(SUBACK * 16, body, []);
      assert [SUBACK * 16] + LengthCode(|body|) + body + [] == Suback(id, grants);
    } else {
      var data := Suback(id, grants);
      assert data[1] >= 128;
      if LengthOf(data[1..]).Some? {
        assert LengthOf(data[1..]).value.used >= 2;
      }
    }
  }

  lemma ShortRoundTrip(n: nat, rest: Bytes)
    requires n < 65_536
    ensures ShortAt(EncodeShort(n) + rest, 0) == n
  {
  }

  /** A two-byte acknowledgement is one frame that carries the packet id it answers. */
  lemma AckFrame(kind: nat, id: PacketId, tail: Bytes)
    requires kind < 16
    ensures CutFrame([kind * 16, 2] + EncodeShort(id) + tail) == Whole(Frame(kind, 0, EncodeShort(id)), tail)
    ensures ShortAt(EncodeShort(id), 0) == id
  {
    CutOfFrame(kind * 16, EncodeShort(id), tail);
    assert [kind * 16] + LengthCode(2) + EncodeShort(id) + tail == [kind * 16, 2] + EncodeShort(id) + tail;
    ShortRoundTrip(id, []);
    assert EncodeShort(id) + [] == EncodeShort(id);
  }

  /**
    What the sender of a packet hears: a PUBLISH is acknowledged exactly at quality of service 1, an UNSUBSCRIBE and
    a SUBSCRIBE under their own packet ids, a PINGREQ by a PINGRESP, and nothing else is answered.
   */
  lemma RepliesAreFrames(p: Packet, tail: Bytes)
    requires p.Publish? ==> (p.message.packetId.Some? <==> p.message.qos > 0)
    ensures p.Publish? && p.message.qos == 1 ==>
              CutFrame(Reply(p) + tail) == Whole(Frame(PUBACK, 0, EncodeShort(p.message.packetId.value)), tail)
    ensures p.Publish? && p.message.qos != 1 ==> Reply(p) == []
    ensures p.Unsubscribe? ==> CutFrame(Reply(p) + tail) == Whole(Frame(UNSUBACK, 0, EncodeShort(p.unsubscribeId)), tail)
    ensures p.Subscribe? && |p.grants| <= 125 ==>
              CutFrame(Reply(p) + tail) == Whole(Frame(SUBACK, 0, EncodeShort(p.subscribeId) + Levels(p.grants)), tail)
    ensures p.Ping? ==> CutFrame(Reply(p) + tail) == Whole(Frame(PINGRESP, 0, []), tail)
    ensures p.Ignored? ==> Reply(p) == []
  {
    hide CutFrame, EncodeShort;
    match p
    case Publish(m) =>
      if m.qos == 1 {
        AckFrame(PUBACK, m.packetId.value, tail);
      }
    case Unsubscribe(id, _) => AckFrame(UNSUBACK, id, tail);
    case Subscribe(id, grants) =>
      if |grants| <= 125 {
        SubackIsWhole(id, grants, tail);
      }
    case Ping =>
      CutOfFrame(PINGRESP * 16, [], tail);
      assert [PINGRESP * 16] + LengthCode(0) + [] + tail == [PINGRESP * 16, 0] + tail;
    case Ignored(_) =>
  }

  lemma SubackIsWhole(id: PacketId, grants: seq<Grant>, tail: Bytes)
    requires |grants| <= 125
    ensures CutFrame(Suback(id, grants) + tail) == Whole(Frame(SUBACK, 0, EncodeShort(id) + Levels(grants)), tail)
  {
    var body := EncodeShort(id) + Levels(grants);
    CutOfFrame(SUBACK * 16, body, tail);
    assert [SUBACK * 16] + LengthCode(|body|) + body + tail == Suback(id, grants) + tail;
  }

  /** The bytes of section 3: fixed headers, lengths and packet ids, the high byte first. */
  lemma KnownReplies()
    ensures Reply(Ping) == [0xD0, 0x00]
    ensures Reply(Unsubscribe(258, ["a"])) == [0xB0, 0x02, 0x01, 0x02]
    ensures Reply(Publish(Message("a", 1, Some(258), []))) == [0x40, 0x02, 0x01, 0x02]
    ensures Reply(Subscribe(258, [Grant("a", 1), Grant("b", 0)])) == [0x90, 0x04, 0x01, 0x02, 0x01, 0x00]
  {
  }

  /** The client's two packets, byte for byte. */
  lemma KnownPackets()
    ensures PublishOut("a", [7], 1, 258).Sendable() && SubscribeOut("a", 1, 258).Sendable()
    ensures PublishOut("a", [7], 1, 258).Wired() == [0x32, 0x06, 0x00, 0x01, 0x61, 0x01, 0x02, 0x07]
    ensures SubscribeOut("a", 1, 258).Wired() == [0x82, 0x06, 0x01, 0x02, 0x00, 0x01, 0x61, 0x01]
  {
    assert Encode("a") == [0x61] by {
      assert "a"[1..] == "";
    }
    var publish, subscribe := PublishOut("a", [7], 1, 258), SubscribeOut("a", 1, 258);
    assert publish.Body() == [0x00, 0x01, 0x61, 0x01, 0x02, 0x07];
    assert subscribe.Body() == [0x01, 0x02, 0x00, 0x01, 0x61, 0x01];
    assert LengthCode(6) == [6];
  }

  // ------------------------------------------------- packets of several filters

  /** A filter as a client asks for it. */
  datatype Wish = Wish(topicFilter: string, level: Byte)

  predicate AllEncodable(filters: seq<string>) {
    forall i :: 0 <= i < |filters| ==> EncodeString(filters[i]).Ok?
  }

  function FilterBytes(filters: seq<string>): Bytes
    requires AllEncodable(filters)
  {
    if filters == [] then [] else EncodeString(filters[0]).value + FilterBytes(filters[1..])
  }

  predicate AllWishable(wishes: seq<Wish>) {
    forall i :: 0 <= i < |wishes| ==> EncodeString(wishes[i].topicFilter).Ok?
  }

  function WishBytes(wishes: seq<Wish>): Bytes
    requires AllWishable(wishes)
  {
    if wishes == [] then []
    else EncodeString(wishes[0].topicFilter).value + [wishes[0].level] + WishBytes(wishes[1..])
  }

  function Granted(wishes: seq<Wish>): seq<Grant> {
    if wishes == [] then []
    else [Grant(wishes[0].topicFilter, if wishes[0].level == 0 then 0 else 1)] + Granted(wishes[1..])
  }

  lemma {:induction false} FiltersRoundTrip(before: Bytes, filters: seq<string>)
    requires AllEncodable(filters)
    ensures ParseFilters(before + FilterBytes(filters), |before|) == Ok(filters)
    decreases |filters|
  {
    hide EncodeString, DecodeString;
    if filters == [] {
      assert before + FilterBytes(filters) == before;
    } else {
      var field, rest := EncodeString(filters[0]).value, FilterBytes(filters[1..]);
      StringFieldRoundTrip(before, filters[0], rest);
      assert before + FilterBytes(filters) == before + field + rest;
      FieldsHaveBytes(filters[0]);
      FiltersRoundTrip(before + field, filters[1..]);
      assert filters == [filters[0]] + filters[1..];
    }
  }

  lemma FieldsHaveBytes(s: string)
    requires EncodeString(s).Ok?
    ensures |EncodeString(s).value| >= 2
  {
  }

  lemma ParseOneGrant(body: Bytes, offset: nat)
    requires DecodeString(body, offset).Ok? && DecodeString(body, offset).value.end < |body| && offset < |body|
    ensures var p := DecodeString(body, offset).value;
            ParseGrants(body, p.end + 1).Ok? ==>
              ParseGrants(body, offset) == Ok([Grant(p.text, Min(body[p.end], 1))] + ParseGrants(body, p.end + 1).value)
  {
    hide DecodeString;
  }

  lemma NoMoreGrants(body: Bytes)
    ensures ParseGrants(body, |body|) == Ok([])
  {
  }

  lemma {:induction false} GrantsRoundTrip(before: Bytes, wishes: seq<Wish>)
    requires AllWishable(wishes)
    ensures ParseGrants(before + WishBytes(wishes), |before|) == Ok(Granted(wishes))
    decreases |wishes|
  {
    hide EncodeString, DecodeString, ParseGrants;
    if wishes == [] {
      assert before + WishBytes(wishes) == before;
      NoMoreGrants(before);
    } else {
      var field, level, rest := EncodeString(wishes[0].topicFilter).value, [wishes[0].level], WishBytes(wishes[1..]);
      StringFieldRoundTrip(before, wishes[0].topicFilter, level + rest);
      var data := before + WishBytes(wishes);
      assert data == before + field + (level + rest);
      assert data == before + field + level + rest && data[|before + field|] == wishes[0].level;
      FieldsHaveBytes(wishes[0].topicFilter);
      ParseOneGrant(data, |before|);
      GrantsRoundTrip(before + field + level, wishes[1..]);
    }
  }

  lemma {:induction false} AllGranted(wishes: seq<Wish>)
    ensures |Granted(wishes)| == |wishes|
  {
    if wishes == [] {
    } else {
      AllGranted(wishes[1..]);
    }
  }

  /** A SUBSCRIBE of any filters is read as those filters, each granted quality of service 1 at most; over 253 it fails. */
  lemma SubscribeRoundTrip(id: PacketId, wishes: seq<Wish>, flags: nat)
    requires AllWishable(wishes)
    ensures ParsePacket(Frame(SUBSCRIBE, flags, EncodeShort(id) + WishBytes(wishes)))
         == if |wishes| <= 253 then Ok(Subscribe(id, Granted(wishes))) else Err(TooManyFilters)
  {
    hide WishBytes, ParseGrants, Granted;
    GrantsRoundTrip(EncodeShort(id), wishes);
    ShortRoundTrip(id, WishBytes(wishes));
    AllGranted(wishes);
  }

  /** An UNSUBSCRIBE of any filters is read as those filters. */
  lemma UnsubscribeRoundTrip(id: PacketId, filters: seq<string>, flags: nat)
    requires AllEncodable(filters)
    ensures ParsePacket(Frame(UNSUBSCRIBE, flags, EncodeShort(id) + FilterBytes(filters))) == Ok(Unsubscribe(id, filters))
  {
    hide FilterBytes, ParseFilters;
    FiltersRoundTrip(EncodeShort(id), filters);
    ShortRoundTrip(id, FilterBytes(filters));
  }
}
