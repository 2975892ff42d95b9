/**
 The length-prefixed protobuf framing. A message is its type name and its payload bytes;
 which names are registered and which payloads parse is left abstract.

   int32 len | int32 nameLen | name, terminator | payload | int32 checksum
             |<------------ covered by the checksum ----->|
             |<----------------------- len ------------------------------->|
 */
module ProtobufCodec {
  import opened Common
  import opened Streaming
  import Adler32

  const HEADER_LEN: int := 4
  const MIN_MESSAGE_LEN: int := 10
  const MAX_MESSAGE_LEN: int := 67108864
  const INT_MAX: int := 0x7FFF_FFFF

  datatype Message = Message(typeName: seq<byte>, payload: seq<byte>)

  datatype ErrorCode =
    NoError | InvalidLength | CheckSumError | InvalidNameLen | UnknownMessageType | ParseError

  /** The generated descriptor pool: known type names, and payloads that parse as a type. */
  datatype Registry = Registry(known: seq<byte> -> bool, parses: (seq<byte>, seq<byte>) -> bool)

  /** What parse returns: the message pointer and the error out-parameter. A payload that
      fails to parse still leaves a message object behind. */
  datatype Parsed = Parsed(message: Option<Message>, error: ErrorCode)

  // ----- 32-bit integers in network byte order -----

  /** The bytes that htonl leaves in memory for the low 32 bits of x. */
  function Int32Bytes(x: int): (b: seq<byte>)
    ensures |b| == 4
  {
    var u := x % 0x1_0000_0000;
    [u / 0x100_0000, u / 0x1_0000 % 0x100, u / 0x100 % 0x100, u % 0x100]
  }

  function Unsigned32(b: seq<byte>): int
    requires |b| == 4
  {
    var b0: int, b1: int, b2: int, b3: int := b[0], b[1], b[2], b[3];
    b0 * 0x100_0000 + b1 * 0x1_0000 + b2 * 0x100 + b3
  }

  function AsInt32(b: seq<byte>): (x: int)
    requires |b| == 4
    ensures -0x8000_0000 <= x <= INT_MAX
  {
    var u := Unsigned32(b);
    if u > INT_MAX then u - 0x1_0000_0000 else u
  }

  /** static_cast of an unsigned 32-bit value to int32_t. */
  function ToInt32(u: int): int {
    if u > INT_MAX then u - 0x1_0000_0000 else u
  }

  /** Four bytes as digits to the base 256, most significant first. */
  function BigEndian(b: seq<byte>): int
    requires |b| == 4
  {
    var b0: int, b1: int, b2: int, b3: int := b[0], b[1], b[2], b[3];
    ((b0 * 256 + b1) * 256 + b2) * 256 + b3
  }

  lemma LastDigit(q: int, r: int)
    requires 0 <= r < 256
    ensures (q * 256 + r) / 256 == q && (q * 256 + r) % 256 == r
  {
  }

  lemma Digits(u: int)
    requires 0 <= u
    ensures u / 256 / 256 == u / 0x1_0000 && u / 256 / 256 / 256 == u / 0x100_0000
  {
    var q := u / 256;
    var p := q / 256;
    assert u == q * 256 + u % 256 && q == p * 256 + q % 256;
    assert u == p * 0x1_0000 + (q % 256 * 256 + u % 256);
    assert p == p / 256 * 256 + p % 256;
    assert u == p / 256 * 0x100_0000 + (p % 256 * 0x1_0000 + q % 256 * 256 + u % 256);
  }

  lemma BigEndianBytes(x: int)
    requires 0 <= x < 0x1_0000_0000
    ensures BigEndian(Int32Bytes(x)) == x
  {
    Digits(x);
    var q := x / 256;
    var p := q / 256;
    assert x % 0x1_0000_0000 == x && p / 256 < 256;
    assert x == q * 256 + x % 256 && q == p * 256 + q % 256 && p == p / 256 * 256 + p % 256;
  }

  lemma BytesOfBigEndian(b: seq<byte>)
    requires |b| == 4
    ensures 0 <= BigEndian(b) < 0x1_0000_0000 && Int32Bytes(BigEndian(b)) == b
  {
    var b0: int, b1: int, b2: int, b3: int := b[0], b[1], b[2], b[3];
    var u := BigEndian(b);
    LastDigit((b0 * 256 + b1) * 256 + b2, b3);
    LastDigit(b0 * 256 + b1, b2);
    LastDigit(b0, b1);
    Digits(u);
    assert u % 0x1_0000_0000 == u;
  }

  lemma UnsignedIsBigEndian(b: seq<byte>)
    requires |b| == 4
    ensures Unsigned32(b) == BigEndian(b)
  {
  }

  lemma Int32RoundTrip(x: int)
    requires -0x8000_0000 <= x < 0x1_0000_0000
    ensures AsInt32(Int32Bytes(x)) == ToInt32(x)
  {
    hide BigEndian, Unsigned32;
    var u := x % 0x1_0000_0000;
    assert u == if x < 0 then x + 0x1_0000_0000 else x;
    assert u % 0x1_0000_0000 == u;
    assert Int32Bytes(x) == Int32Bytes(u);
    hide Int32Bytes;
    BigEndianBytes(u);
    UnsignedIsBigEndian(Int32Bytes(u));
  }

  lemma Int32BytesOfInt32(b: seq<byte>)
    requires |b| == 4
    ensures Int32Bytes(AsInt32(b)) == b
  {
    BytesOfBigEndian(b);
    UnsignedIsBigEndian(b);
    var u := BigEndian(b);
    hide BigEndian, Unsigned32;
    assert AsInt32(b) % 0x1_0000_0000 == u == u % 0x1_0000_0000;
  }

  // ----- Encoding -----

  /** Everything the checksum covers, with the byte that ends the name left open. */
  function Covered(m: Message, terminator: byte): seq<byte> {
    Int32Bytes(|m.typeName| + 1) + m.typeName + [terminator] + m.payload
  }

  function Body(m: Message, terminator: byte): (b: seq<byte>)
    ensures |b| == 9 + |m.typeName| + |m.payload|
  {
    Covered(m, terminator) + Int32Bytes(Adler32.Checksum(Covered(m, terminator)))
  }

  function FrameWith(m: Message, terminator: byte): (f: seq<byte>)
    ensures |f| == 13 + |m.typeName| + |m.payload|
  {
    Int32Bytes(|Body(m, terminator)|) + Body(m, terminator)
  }

  /** The frame of a message; the name is ended by a NUL. */
  function Frame(m: Message): seq<byte> {
    FrameWith(m, 0)
  }

  /** All the int casts of the encoder are exact. */
  predicate Encodable(m: Message) {
    9 + |m.typeName| + |m.payload| <= INT_MAX
  }

  /** The encoder, in the order in which it appends to buf and finally inserts at its front. */
  method FillEmptyBuffer(m: Message) returns (buf: seq<byte>)
    requires Encodable(m)
    ensures buf == Frame(m)
  {
    buf := [];
    var nameLen := |m.typeName| + 1;
    buf := buf + Int32Bytes(nameLen);
    buf := buf + (m.typeName + [0])[..nameLen];
    var byteSize := |m.payload|;
    var start := nameLen + HEADER_LEN;
    buf := buf + seq(byteSize, i => 0);
    buf := buf[..start] + m.payload;
    assert buf == Covered(m, 0);
    var checkSum := Int32Bytes(Adler32.Checksum(buf));
    buf := buf + checkSum;
    var len := Int32Bytes(|buf|);
    buf := len + buf;
  }

  // ----- Decoding -----

  /** The checksum, name and payload checks on one frame body. */
  function Parse(reg: Registry, body: seq<byte>): Parsed
    requires |body| >= 2 * HEADER_LEN
  {
    var len := |body|;
    var expectedCheckSum := AsInt32(body[len - HEADER_LEN..]);
    var checkSum := ToInt32(Adler32.Checksum(body[..len - HEADER_LEN]));
    if checkSum == expectedCheckSum then
      var nameLen := AsInt32(body[..HEADER_LEN]);
      if nameLen >= 2 && nameLen <= len - 2 * HEADER_LEN then
        var typeName := body[HEADER_LEN..HEADER_LEN + nameLen - 1];
        if reg.known(typeName) then
          var data := body[HEADER_LEN + nameLen..len - HEADER_LEN];
          Parsed(Some(Message(typeName, data)), if reg.parses(typeName, data) then NoError else ParseError)
        else Parsed(None, UnknownMessageType)
      else Parsed(None, InvalidNameLen)
    else Parsed(None, CheckSumError)
  }

  /** What the decoder does with the head of the buffer; its state is what it has delivered. */
  function Scan(reg: Registry, delivered: seq<Message>, buf: seq<byte>): (v: Verdict<seq<Message>, ErrorCode>)
    ensures v.Advance? ==> 0 < v.used <= |buf|
    ensures v.Reject? ==> v.state == delivered
  {
    if |buf| < MIN_MESSAGE_LEN + HEADER_LEN then Wait
    else
      var len := AsInt32(buf[..HEADER_LEN]);
      if len > MAX_MESSAGE_LEN || len < MIN_MESSAGE_LEN then Reject(delivered, InvalidLength)
      else if |buf| >= len + HEADER_LEN then
        var p := Parse(reg, buf[HEADER_LEN..HEADER_LEN + len]);
        if p.error == NoError && p.message.Some? then Advance(delivered + [p.message.value], HEADER_LEN + len)
        else Reject(delivered, p.error)
      else Wait
  }

  function Decoder(reg: Registry): Parser<seq<Message>, byte, ErrorCode> {
    (delivered: seq<Message>, buf: seq<byte>) => Scan(reg, delivered, buf)
  }

  lemma DecoderIncremental(reg: Registry)
    ensures Incremental(Decoder(reg))
  {
    forall acc, a, b {:trigger Decoder(reg)(acc, a + b)} | !Scan(reg, acc, a).Wait?
      ensures Scan(reg, acc, a + b) == Scan(reg, acc, a)
    {
      assert (a + b)[..HEADER_LEN] == a[..HEADER_LEN];
      var len := AsInt32(a[..HEADER_LEN]);
      if MIN_MESSAGE_LEN <= len <= MAX_MESSAGE_LEN {
        assert (a + b)[HEADER_LEN..HEADER_LEN + len] == a[HEADER_LEN..HEADER_LEN + len];
      }
    }
  }

  /** One decoder call, for a receiver that has already been given the messages in acc. */
  ghost function Decode(reg: Registry, acc: seq<Message>, buf: seq<byte>): Stop<seq<Message>, byte, ErrorCode> {
    DecoderIncremental(reg);
    Consume(Decoder(reg), acc, buf)
  }

  /** The decoder loop: it consumes complete frames from the front of the buffer. The callbacks
      append to what the receiver has been given. */
  method OnMessage(reg: Registry, acc: seq<Message>, input: seq<byte>)
    returns (buf: seq<byte>, delivered: seq<Message>, error: Option<ErrorCode>)
    ensures Decode(reg, acc, input) == Stop(delivered, buf, error)
  {
    hide Parse, AsInt32;
    DecoderIncremental(reg);
    buf, delivered, error := input, acc, None;
    while |buf| >= MIN_MESSAGE_LEN + HEADER_LEN
      invariant Decode(reg, acc, input) == Decode(reg, delivered, buf)
      invariant error == None
      decreases |buf|
    {
      assert Decoder(reg)(delivered, buf) == Scan(reg, delivered, buf);
      var len := AsInt32(buf[..HEADER_LEN]);
      if len > MAX_MESSAGE_LEN || len < MIN_MESSAGE_LEN {
        error := Some(InvalidLength);
        break;
      } else if |buf| >= len + HEADER_LEN {
        var p := Parse(reg, buf[HEADER_LEN..HEADER_LEN + len]);
        if p.error == NoError && p.message.Some? {
          delivered := delivered + [p.message.value];
          buf := buf[HEADER_LEN + len..];
        } else {
          error := Some(p.error);
          break;
        }
      } else {
        break;
      }
    }
  }

  // ----- One frame -----

  /** The messages that the decoder takes: exactly what its checks look at. */
  ghost predicate Deliverable(reg: Registry, m: Message) {
    && m.typeName != []
    && reg.known(m.typeName)
    && reg.parses(m.typeName, m.payload)
    && 9 + |m.typeName| + |m.payload| <= MAX_MESSAGE_LEN
  }

  ghost predicate CheckSumHolds(body: seq<byte>) {
    && |body| >= 2 * HEADER_LEN
    && body[|body| - 4..] == Int32Bytes(Adler32.Checksum(body[..|body| - 4]))
  }

  lemma CheckSumErrorExactly(reg: Registry, body: seq<byte>)
    requires |body| >= 2 * HEADER_LEN
    ensures Parse(reg, body).error == CheckSumError <==> !CheckSumHolds(body)
  {
    var sum := Adler32.Checksum(body[..|body| - 4]);
    Adler32.RunInRange(body[..|body| - 4]);
    Int32RoundTrip(sum);
    Int32BytesOfInt32(body[|body| - 4..]);
    SameInt32(sum);
  }

  lemma SameInt32(u: int)
    requires 0 <= u < 0x1_0000_0000
    ensures Int32Bytes(ToInt32(u)) == Int32Bytes(u)
  {
  }

  /** The parts of an encoded body, as the decoder cuts them out. */
  lemma BodyParts(m: Message, t: byte)
    requires Encodable(m)
    ensures CheckSumHolds(Body(m, t))
    ensures var b := Body(m, t); var n := |m.typeName| + 1;
      && AsInt32(b[..4]) == n
      && b[4..4 + n - 1] == m.typeName
      && b[4 + n..|b| - 4] == m.payload
  {
    var b := Body(m, t);
    Int32RoundTrip(|m.typeName| + 1);
    assert b[..|b| - 4] == Covered(m, t);
    assert b[..4] == Int32Bytes(|m.typeName| + 1);
  }

  /** An encoded body parses to its own message exactly when the name is not empty, the type
      is registered and the payload is valid; the terminator plays no part. */
  lemma ParseEncodedExactly(reg: Registry, m: Message, t: byte)
    requires Encodable(m)
    ensures Parse(reg, Body(m, t)) == Parsed(Some(m), NoError)
       <==> m.typeName != [] && reg.known(m.typeName) && reg.parses(m.typeName, m.payload)
    ensures Parse(reg, Body(m, t)).error == NoError ==> Parse(reg, Body(m, t)).message == Some(m)
  {
    BodyParts(m, t);
    CheckSumErrorExactly(reg, Body(m, t));
  }

  /** What the decoder answers to the body of any message. */
  lemma ErrorOfEncoded(reg: Registry, m: Message, t: byte)
    requires Encodable(m)
    ensures Parse(reg, Body(m, t)).error ==
      if m.typeName == [] then InvalidNameLen
      else if !reg.known(m.typeName) then UnknownMessageType
      else if !reg.parses(m.typeName, m.payload) then ParseError
      else NoError
  {
    BodyParts(m, t);
    CheckSumErrorExactly(reg, Body(m, t));
  }

  /** And to any body at all: which check fails first. A message object is there exactly when the
      type is known. */
  lemma ErrorExactly(reg: Registry, body: seq<byte>)
    requires |body| >= 2 * HEADER_LEN
    ensures var p := Parse(reg, body); var n := AsInt32(body[..4]); var len := |body|;
      && (!CheckSumHolds(body) ==> p == Parsed(None, CheckSumError))
      && (CheckSumHolds(body) && (n < 2 || n > len - 8) ==> p == Parsed(None, InvalidNameLen))
      && (CheckSumHolds(body) && 2 <= n <= len - 8 ==>
            var name := body[4..3 + n]; var payload := body[4 + n..len - 4];
            && (!reg.known(name) ==> p == Parsed(None, UnknownMessageType))
            && (reg.known(name) ==> p.message == Some(Message(name, payload)))
            && (reg.known(name) ==> p.error == if reg.parses(name, payload) then NoError else ParseError))
  {
    CheckSumErrorExactly(reg, body);
  }

  /** What one call does at the head of the buffer: it waits for the shortest frame or for the rest
      of one, reports a length that no frame has, or goes by the frame's body. */
  lemma HeadExactly(reg: Registry, acc: seq<Message>, buf: seq<byte>)
    ensures |buf| < 14 ==> Decode(reg, acc, buf) == Stop(acc, buf, None)
    ensures |buf| >= 14 ==>
      var len := AsInt32(buf[..4]); var r := Decode(reg, acc, buf);
      && (len < 10 || len > 64 * 1024 * 1024 ==> r == Stop(acc, buf, Some(InvalidLength)))
      && (10 <= len <= 64 * 1024 * 1024 && |buf| < 4 + len ==> r == Stop(acc, buf, None))
      && (10 <= len <= 64 * 1024 * 1024 && |buf| >= 4 + len ==>
            var p := Parse(reg, buf[4..4 + len]);
            if p.error == NoError
            then p.message.Some? && r == Decode(reg, acc + [p.message.value], buf[4 + len..])
            else p.error != InvalidLength && r == Stop(acc, buf, Some(p.error)))
  {
    DecoderIncremental(reg);
    hide AsInt32;
    assert Decoder(reg)(acc, buf) == Scan(reg, acc, buf);
  }

  /** The answer to the first frame in the buffer, for every message that can be encoded. */
  lemma AnswerToFrame(reg: Registry, acc: seq<Message>, m: Message, rest: seq<byte>)
    requires Encodable(m)
    ensures var buf := Frame(m) + rest; var r := Decode(reg, acc, buf);
      && (9 + |m.typeName| + |m.payload| > 64 * 1024 * 1024 ==> r == Stop(acc, buf, Some(InvalidLength)))
      && (10 <= 9 + |m.typeName| + |m.payload| <= 64 * 1024 * 1024 ==>
            if m.typeName == [] then r == Stop(acc, buf, Some(InvalidNameLen))
            else if !reg.known(m.typeName) then r == Stop(acc, buf, Some(UnknownMessageType))
            else if !reg.parses(m.typeName, m.payload) then r == Stop(acc, buf, Some(ParseError))
            else r == Decode(reg, acc + [m], rest))
  {
    FrameHead(m, 0, rest);
    ErrorOfEncoded(reg, m, 0);
    ParseEncodedExactly(reg, m, 0);
    HeadExactly(reg, acc, Frame(m) + rest);
  }

  /** The frame byte by byte: length, name length and checksum stand in network byte order. */
  lemma FrameLayout(m: Message)
    requires Encodable(m)
    ensures var f := Frame(m); var n := |m.typeName|; var k := |m.payload|;
      && |f| == 13 + n + k
      && BigEndian(f[..4]) == 9 + n + k && BigEndian(f[4..8]) == n + 1
      && f[8..8 + n] == m.typeName && f[8 + n] == 0 && f[9 + n..9 + n + k] == m.payload
      && BigEndian(f[9 + n + k..]) == Adler32.Checksum(f[4..9 + n + k])
  {
    var c := Covered(m, 0);
    var sum := Adler32.Checksum(c);
    Adler32.RunInRange(c);
    BigEndianBytes(9 + |m.typeName| + |m.payload|);
    BigEndianBytes(|m.typeName| + 1);
    BigEndianBytes(sum);
    hide Int32Bytes, BigEndian;
    FrameParts(Int32Bytes(9 + |m.typeName| + |m.payload|), Int32Bytes(|m.typeName| + 1), m.typeName, m.payload,
               Int32Bytes(sum));
  }

  lemma FrameParts(len: seq<byte>, nameLen: seq<byte>, name: seq<byte>, payload: seq<byte>, sum: seq<byte>)
    requires |len| == |nameLen| == |sum| == 4
    ensures var c := nameLen + name + [0] + payload; var f := len + (c + sum); var n, k := |name|, |payload|;
      && f[..4] == len && f[4..8] == nameLen && f[8..8 + n] == name && f[8 + n] == 0
      && f[9 + n..9 + n + k] == payload && f[4..9 + n + k] == c && f[9 + n + k..] == sum
  {
  }

  /** Whatever body is accepted, it is the encoding of the delivered message. */
  lemma ParseSound(reg: Registry, body: seq<byte>) returns (terminator: byte)
    requires |body| >= 2 * HEADER_LEN && Parse(reg, body).error == NoError
    ensures Parse(reg, body).message.Some?
    ensures var m := Parse(reg, body).message.value;
      && body == Body(m, terminator)
      && m.typeName != [] && reg.known(m.typeName) && reg.parses(m.typeName, m.payload)
  {
    var m := Parse(reg, body).message.value;
    var len, nameLen := |body|, AsInt32(body[..4]);
    CheckSumErrorExactly(reg, body);
    Int32BytesOfInt32(body[..4]);
    terminator := body[3 + nameLen];
    assert body[..len - 4] == Covered(m, terminator);
    assert body == body[..len - 4] + body[len - 4..];
  }

  lemma ScanFrame(reg: Registry, acc: seq<Message>, m: Message, t: byte, rest: seq<byte>)
    requires Deliverable(reg, m)
    ensures Scan(reg, acc, FrameWith(m, t) + rest) == Advance(acc + [m], |FrameWith(m, t)|)
  {
    FrameHead(m, t, rest);
    ParseEncodedExactly(reg, m, t);
  }

  lemma FrameHead(m: Message, t: byte, rest: seq<byte>)
    requires Encodable(m)
    ensures var buf := FrameWith(m, t) + rest; var len := |Body(m, t)|;
      && AsInt32(buf[..4]) == len
      && buf[4..4 + len] == Body(m, t)
      && buf[4 + len..] == rest
  {
    var buf := FrameWith(m, t) + rest;
    var len := |Body(m, t)|;
    Int32RoundTrip(len);
    assert buf[..4] == Int32Bytes(len);
  }

  lemma DecodeFrame(reg: Registry, acc: seq<Message>, m: Message, t: byte, rest: seq<byte>)
    requires Deliverable(reg, m)
    ensures Decode(reg, acc, FrameWith(m, t) + rest) == Decode(reg, acc + [m], rest)
  {
    DecoderIncremental(reg);
    ScanFrame(reg, acc, m, t, rest);
    var buf := FrameWith(m, t) + rest;
    assert Decoder(reg)(acc, buf) == Scan(reg, acc, buf);
    assert buf[|FrameWith(m, t)|..] == rest;
  }

  lemma UndeliverableStays(reg: Registry, acc: seq<Message>, m: Message, rest: seq<byte>)
    requires Encodable(m) && !Deliverable(reg, m)
    ensures Decode(reg, acc, Frame(m) + rest).state == acc
    ensures Decode(reg, acc, Frame(m) + rest).rest == Frame(m) + rest
  {
    DecoderIncremental(reg);
    FrameHead(m, 0, rest);
    ParseEncodedExactly(reg, m, 0);
    assert Decoder(reg)(acc, Frame(m) + rest) == Scan(reg, acc, Frame(m) + rest);
  }

  // ----- Streams -----

  function Frames(ms: seq<Message>): (fs: seq<seq<byte>>)
    ensures |fs| == |ms|
  {
    seq(|ms|, i requires 0 <= i < |ms| => Frame(ms[i]))
  }

  function Stream(ms: seq<Message>): seq<byte> {
    Flatten(Frames(ms))
  }

  lemma StreamCons(ms: seq<Message>)
    requires ms != []
    ensures Stream(ms) == Frame(ms[0]) + Stream(ms[1..])
  {
    assert Frames(ms)[1..] == Frames(ms[1..]);
  }

  lemma {:induction false} DecodeStream(reg: Registry, acc: seq<Message>, ms: seq<Message>, rest: seq<byte>)
    requires forall m <- ms :: Deliverable(reg, m)
    ensures Decode(reg, acc, Stream(ms) + rest) == Decode(reg, acc + ms, rest)
    decreases |ms|
  {
    hide FrameWith, Scan, Decode, Deliverable;
    if ms == [] {
      assert Stream(ms) + rest == rest;
      assert acc + ms == acc;
    } else {
      var m, later := ms[0], ms[1..];
      assert ms == [m] + later;
      StreamCons(ms);
      DecodeFrame(reg, acc, m, 0, Stream(later) + rest);
      DecodeStream(reg, acc + [m], later, rest);
      Assoc(Frame(m), Stream(later), rest);
      Assoc(acc, [m], later);
    }
  }

  lemma DecodeNothing(reg: Registry, acc: seq<Message>)
    ensures Decode(reg, acc, []) == Stop(acc, [], None)
  {
    DecoderIncremental(reg);
    assert Decoder(reg)(acc, []) == Wait;
  }

  /** Decoding the concatenated frames of a list gives back exactly that list, with nothing
      left over and no error, if and only if every message is deliverable. */
  lemma {:induction false} StreamRoundTripExactly(reg: Registry, acc: seq<Message>, ms: seq<Message>)
    requires forall m <- ms :: Encodable(m)
    ensures Decode(reg, acc, Stream(ms)) == Stop(acc + ms, [], None)
       <==> forall m <- ms :: Deliverable(reg, m)
    decreases |ms|
  {
    hide FrameWith, Scan;
    if forall m <- ms :: Deliverable(reg, m) {
      DecodeStream(reg, acc, ms, []);
      DecodeNothing(reg, acc + ms);
      assert Stream(ms) + [] == Stream(ms);
    } else {
      StreamCons(ms);
      if Deliverable(reg, ms[0]) {
        StreamRoundTripExactly(reg, acc + [ms[0]], ms[1..]);
        DecodeFrame(reg, acc, ms[0], 0, Stream(ms[1..]));
        assert acc + ms == acc + [ms[0]] + ms[1..];
      } else {
        UndeliverableStays(reg, acc, ms[0], Stream(ms[1..]));
      }
    }
  }

  function FramesWith(ms: seq<Message>, ts: seq<byte>): (fs: seq<seq<byte>>)
    requires |ms| == |ts|
    ensures |fs| == |ms|
  {
    seq(|ms|, i requires 0 <= i < |ms| => FrameWith(ms[i], ts[i]))
  }

  lemma FramesWithCons(m: Message, t: byte, ms: seq<Message>, ts: seq<byte>)
    requires |ts| == |ms|
    ensures Flatten(FramesWith([m] + ms, [t] + ts)) == FrameWith(m, t) + Flatten(FramesWith(ms, ts))
  {
    hide FrameWith;
    assert FramesWith([m] + ms, [t] + ts)[1..] == FramesWith(ms, ts);
  }

  lemma ScanSound(reg: Registry, acc: seq<Message>, buf: seq<byte>) returns (m: Message, t: byte)
    requires Scan(reg, acc, buf).Advance?
    ensures Deliverable(reg, m)
    ensures Scan(reg, acc, buf) == Advance(acc + [m], |FrameWith(m, t)|)
    ensures buf == FrameWith(m, t) + buf[|FrameWith(m, t)|..]
  {
    var len := AsInt32(buf[..4]);
    t := ParseSound(reg, buf[4..4 + len]);
    m := Parse(reg, buf[4..4 + len]).message.value;
    Int32BytesOfInt32(buf[..4]);
    assert FrameWith(m, t) == buf[..4] + buf[4..4 + len] == buf[..4 + len];
  }

  /** The converse, on every byte stream: what was consumed is exactly the frames of what was
      delivered, up to the unchecked byte that ends each name. */
  lemma {:induction false} DecodeSound(reg: Registry, acc: seq<Message>, buf: seq<byte>)
    returns (ms: seq<Message>, ts: seq<byte>)
    ensures |ts| == |ms| && forall m <- ms :: Deliverable(reg, m)
    ensures Decode(reg, acc, buf).state == acc + ms
    ensures buf == Flatten(FramesWith(ms, ts)) + Decode(reg, acc, buf).rest
    decreases |buf|
  {
    hide FrameWith, Scan, Decode, FramesWith, Deliverable;
    var v := Scan(reg, acc, buf);
    DecodeStep(reg, acc, buf);
    if v.Advance? {
      var m, t := ScanSound(reg, acc, buf);
      var rest := buf[v.used..];
      var ms', ts' := DecodeSound(reg, acc + [m], rest);
      ms, ts := [m] + ms', [t] + ts';
      FramesWithCons(m, t, ms', ts');
      hide Flatten;
      Assoc(acc, [m], ms');
      Assoc(FrameWith(m, t), Flatten(FramesWith(ms', ts')), Decode(reg, acc + [m], rest).rest);
    } else {
      ms, ts := [], [];
      NoFrames();
      assert acc + [] == acc && [] + buf == buf;
    }
  }

  lemma NoFrames()
    ensures Flatten(FramesWith([], [])) == []
  {
  }

  /** One round of the decoder. */
  lemma DecodeStep(reg: Registry, acc: seq<Message>, buf: seq<byte>)
    ensures match Scan(reg, acc, buf)
      case Advance(s, n) => Decode(reg, acc, buf) == Decode(reg, s, buf[n..])
      case _ => Decode(reg, acc, buf).state == acc && Decode(reg, acc, buf).rest == buf
  {
    DecoderIncremental(reg);
    hide Scan;
    assert Decoder(reg)(acc, buf) == Scan(reg, acc, buf);
  }

  /** A receiver that appends each arriving chunk to its buffer and calls the decoder. */
  ghost function Receive(reg: Registry, chunks: seq<seq<byte>>): Fed<seq<Message>, byte, ErrorCode> {
    DecoderIncremental(reg);
    Feed(Decoder(reg), [], chunks)
  }

  /** For every byte stream, valid or corrupt, and every way to cut it: the delivered messages
      and the left-over buffer are those of one call on the whole stream, and each call reports
      the error that one call on the bytes received so far would report. */
  lemma ReceiveIndependentOfChunks(reg: Registry, chunks: seq<seq<byte>>)
    ensures Receive(reg, chunks).state == Decode(reg, [], Flatten(chunks)).state
    ensures Receive(reg, chunks).rest == Decode(reg, [], Flatten(chunks)).rest
    ensures |Receive(reg, chunks).errors| == |chunks|
    ensures forall i :: 0 <= i < |chunks| ==>
      Receive(reg, chunks).errors[i] == Decode(reg, [], Flatten(chunks[..i + 1])).error
  {
    DecoderIncremental(reg);
    DecodeNothing(reg, []);
    assert Decoder(reg)([], []) == Wait;
    ChunkIndependence(Decoder(reg), [], chunks);
  }

  /** Encoder and decoder together: the frames of deliverable messages, in any chunks. */
  lemma ChunkedRoundTrip(reg: Registry, ms: seq<Message>, chunks: seq<seq<byte>>)
    requires forall m <- ms :: Deliverable(reg, m)
    requires Flatten(chunks) == Stream(ms)
    ensures Receive(reg, chunks).state == ms && Receive(reg, chunks).rest == []
    ensures forall e <- Receive(reg, chunks).errors :: e == None
  {
    ReceiveIndependentOfChunks(reg, chunks);
    StreamRoundTripExactly(reg, [], ms);
    assert [] + ms == ms;
    DecoderIncremental(reg);
    assert Decoder(reg)([], []) == Wait;
    NoErrorBefore(Decoder(reg), [], chunks);
  }

  /** Once a bad frame is at the head, no later bytes change what was delivered or the error. */
  lemma BadFrameSticks(reg: Registry, acc: seq<Message>, buf: seq<byte>, more: seq<byte>)
    requires Decode(reg, acc, buf).error.Some?
    ensures var r := Decode(reg, acc, buf);
      Decode(reg, acc, buf + more) == Stop(r.state, r.rest + more, r.error)
  {
    DecoderIncremental(reg);
    ErrorSticks(Decoder(reg), acc, buf, more);
  }

  // ----- Corruption -----

  /** Any one byte of a body changed, checksum bytes included, is a checksum error. */
  lemma OneByteCorruption(reg: Registry, body: seq<byte>, i: nat, x: byte)
    requires CheckSumHolds(body) && i < |body| && x != body[i]
    ensures Parse(reg, body[i := x]) == Parsed(None, CheckSumError)
  {
    var n := |body| - 4;
    var bad := body[i := x];
    CheckSumErrorExactly(reg, bad);
    if i < n {
      Adler32.OneByteDetected(body[..n], i, x);
      assert bad[..n] == body[..n][i := x];
      assert bad[n..] == body[n..];
      SumsDistinguished(body[..n], bad[..n]);
    } else {
      assert bad[..n] == body[..n];
      assert bad[n..][i - n] != body[n..][i - n];
    }
  }

  lemma SumsDistinguished(d: seq<byte>, e: seq<byte>)
    ensures Int32Bytes(Adler32.Checksum(d)) == Int32Bytes(Adler32.Checksum(e))
       <==> Adler32.Checksum(d) == Adler32.Checksum(e)
  {
    Adler32.RunInRange(d);
    Adler32.RunInRange(e);
    Int32RoundTrip(Adler32.Checksum(d));
    Int32RoundTrip(Adler32.Checksum(e));
  }

  /** Two changed bytes under the checksum are a checksum error unless the differences cancel
      and the positions are a multiple of 65521 apart, and then they are not. */
  lemma TwoByteCorruptionExactly(reg: Registry, body: seq<byte>, i: nat, j: nat, x: byte, y: byte)
    requires CheckSumHolds(body) && i < j < |body| - 4 && x != body[i] && y != body[j]
    ensures Parse(reg, body[i := x][j := y]).error == CheckSumError
       <==> !(x - body[i] == body[j] - y && (j - i) % 65521 == 0)
  {
    var n := |body| - 4;
    var bad := body[i := x][j := y];
    CheckSumErrorExactly(reg, bad);
    Adler32.TwoBytesDetectedExactly(body[..n], i, j, x, y);
    hide Parse, Int32Bytes;
    SumsDistinguished(body[..n], bad[..n]);
    assert bad[..n] == body[..n][i := x][j := y];
    assert bad[n..] == body[n..];
  }

  /** A frame with one corrupted body byte, anywhere in a stream and in any chunks: everything
      before it is delivered, nothing from it or after it ever is. */
  lemma CorruptedFrameStops(reg: Registry, ms: seq<Message>, m: Message, i: nat, x: byte, after: seq<byte>,
                            chunks: seq<seq<byte>>)
    requires forall k <- ms :: Deliverable(reg, k)
    requires Deliverable(reg, m) && 4 <= i < |Frame(m)| && x != Frame(m)[i]
    requires Flatten(chunks) == Stream(ms) + (Frame(m)[i := x] + after)
    ensures Receive(reg, chunks).state == ms
    ensures Receive(reg, chunks).rest == Frame(m)[i := x] + after
    ensures chunks != [] && Receive(reg, chunks).errors[|chunks| - 1] == Some(CheckSumError)
  {
    hide FrameWith, Scan;
    var bad := Frame(m)[i := x] + after;
    ScanCorrupted(reg, ms, m, i, x, after);
    DecoderIncremental(reg);
    assert Decoder(reg)(ms, bad) == Reject(ms, CheckSumError);
    DecodeStream(reg, [], ms, bad);
    assert [] + ms == ms;
    ReceiveIndependentOfChunks(reg, chunks);
    assert |Stream(ms) + bad| > 0;
    assert chunks[..|chunks| - 1 + 1] == chunks;
  }

  lemma ScanCorrupted(reg: Registry, acc: seq<Message>, m: Message, i: nat, x: byte, after: seq<byte>)
    requires Deliverable(reg, m) && 4 <= i < |Frame(m)| && x != Frame(m)[i]
    ensures Scan(reg, acc, Frame(m)[i := x] + after) == Reject(acc, CheckSumError)
  {
    var bad := Frame(m)[i := x] + after;
    var body := Body(m, 0);
    BodyParts(m, 0);
    OneByteCorruption(reg, body, i - 4, x);
    Int32RoundTrip(|body|);
    assert bad[..4] == Int32Bytes(|body|);
    assert bad[4..4 + |body|] == body[i - 4 := x];
  }

  /** The byte that ends the name is not checked: a frame whose terminator is any other byte than
      NUL, with a matching checksum, is delivered like the real one. */
  lemma TerminatorUnchecked(reg: Registry, acc: seq<Message>, m: Message, t: byte)
    requires Deliverable(reg, m) && t != 0
    ensures FrameWith(m, t) != Frame(m)
    ensures Decode(reg, acc, FrameWith(m, t)) == Decode(reg, acc, Frame(m)) == Stop(acc + [m], [], None)
  {
    DecodeFrame(reg, acc, m, t, []);
    DecodeFrame(reg, acc, m, 0, []);
    DecodeNothing(reg, acc + [m]);
    assert FrameWith(m, t) + [] == FrameWith(m, t) && Frame(m) + [] == Frame(m);
    assert FrameWith(m, t)[8 + |m.typeName|] == t && Frame(m)[8 + |m.typeName|] == 0;
  }
}
