/** The MQTT control packets: writing them, reading them back, and framing a stream. */
module Packets {
  import opened PacketFields

  type Word = x: int | 0 <= x < 65536

  datatype Header = Header(kind: Byte, dup: bool, qos: Byte, retain: bool, remaining: nat)

  datatype ConnectFlags = ConnectFlags(cleanSession: bool, willFlag: bool, willQos: Byte, willRetain: bool,
                                       passwordFlag: bool, usernameFlag: bool, reservedBit: Byte)

  /** Acknowledgement stands for PUBACK, PUBREC, PUBREL, PUBCOMP and UNSUBACK, which share
      their layout, and Signal for PINGREQ, PINGRESP and DISCONNECT. */
  datatype Packet =
    | Connect(h: Header, protocolName: Bytes, protocolVersion: Byte, flags: ConnectFlags, keepalive: Word,
              clientIdentifier: Bytes, willTopic: Bytes, willMessage: Bytes, username: Bytes, password: Bytes, other: Bytes)
    | Connack(h: Header, sessionPresent: bool, returnCode: Byte)
    | Publish(h: Header, topicName: Bytes, messageID: Word, payload: Bytes)
    | Acknowledgement(h: Header, messageID: Word)
    | Subscribe(h: Header, messageID: Word, topics: seq<Bytes>, qoss: Bytes)
    | Suback(h: Header, messageID: Word, returnCodes: Bytes)
    | Unsubscribe(h: Header, messageID: Word, topics: seq<Bytes>)
    | Signal(h: Header)

  const CONNECT: Byte := 1
  const CONNACK: Byte := 2
  const PUBLISH: Byte := 3
  const PUBACK: Byte := 4
  const PUBREC: Byte := 5
  const PUBREL: Byte := 6
  const PUBCOMP: Byte := 7
  const SUBSCRIBE: Byte := 8
  const SUBACK: Byte := 9
  const UNSUBSCRIBE: Byte := 10
  const UNSUBACK: Byte := 11
  const PINGREQ: Byte := 12
  const PINGRESP: Byte := 13
  const DISCONNECT: Byte := 14

  predicate IsAcknowledgement(kind: Byte) {
    PUBACK <= kind <= PUBCOMP || kind == UNSUBACK
  }

  predicate IsSignal(kind: Byte) {
    PINGREQ <= kind <= DISCONNECT
  }

  // ---------- bit-packed bytes ----------

  function OrByte(a: Byte, b: Byte): Byte {
    OrFits(a, b, 8);
    Or(a, b)
  }

  lemma {:induction false} OrFits(a: nat, b: nat, k: nat)
    requires a < Pow2(k) && b < Pow2(k)
    ensures Or(a, b) < Pow2(k) && (k == 8 ==> Pow2(k) == 256)
    decreases k
  {
    if k == 8 {
      PowersOfTwo();
    }
    if k > 0 {
      OrFits(a / 2, b / 2, k - 1);
    }
  }

  lemma PowersOfTwo()
    ensures Pow2(0) == 1 && Pow2(1) == 2 && Pow2(2) == 4 && Pow2(3) == 8 && Pow2(4) == 16
    ensures Pow2(5) == 32 && Pow2(6) == 64 && Pow2(7) == 128 && Pow2(8) == 256
  {
    assert Pow2(4) == 16;
    assert Pow2(8) == 2 * Pow2(7);
  }

  /** The header byte, its fields joined bit by bit. */
  function HeaderBits(h: Header): Byte {
    OrByte(OrByte(OrByte(Shl(h.kind, 16), Shl(Bit(h.dup), 8)), Shl(h.qos, 2)), Bit(h.retain))
  }

  function FlagsBits(f: ConnectFlags): Byte {
    OrByte(OrByte(OrByte(OrByte(OrByte(Shl(Bit(f.cleanSession), 2), Shl(Bit(f.willFlag), 4)), Shl(f.willQos, 8)),
                         Shl(Bit(f.willRetain), 32)), Shl(Bit(f.passwordFlag), 64)), Shl(Bit(f.usernameFlag), 128))
  }

  /** The same byte with the common case, where no field spills into the next, as a sum. */
  function HeaderByte(h: Header): Byte {
    if h.kind < 16 && h.qos < 4 then 16 * h.kind + 8 * Bit(h.dup) + 2 * h.qos + Bit(h.retain) else HeaderBits(h)
  }

  function FlagsByte(f: ConnectFlags): Byte {
    if f.willQos < 4 then
      2 * Bit(f.cleanSession) + 4 * Bit(f.willFlag) + 8 * f.willQos + 32 * Bit(f.willRetain)
      + 64 * Bit(f.passwordFlag) + 128 * Bit(f.usernameFlag)
    else FlagsBits(f)
  }

  function HeaderOf(b: Byte, remaining: nat): Header {
    Header(b / 16, b / 8 % 2 > 0, b / 2 % 4, b % 2 > 0, remaining)
  }

  function FlagsOf(b: Byte): ConnectFlags {
    ConnectFlags(b / 2 % 2 > 0, b / 4 % 2 > 0, b / 8 % 4, b / 32 % 2 > 0, b / 64 % 2 > 0, b / 128 % 2 > 0, b % 2)
  }

  /** A field above the k lowest bits, and one that fits into them: m is 2 to the k. */
  lemma Join(x: nat, b: Byte, k: nat, m: nat)
    requires (k == 1 && m == 2) || (k == 2 && m == 4) || (k == 3 && m == 8) || (k == 4 && m == 16)
             || (k == 5 && m == 32) || (k == 6 && m == 64) || (k == 7 && m == 128)
    requires x * m + b < 256 && b < m
    ensures OrByte(x * m, b) == x * m + b == OrByte(b, x * m)
  {
    PowersOfTwo();
    ShiftClears(x, k);
    OrAdds(x * m, b, k);
  }

  lemma HighFields(k: Byte, d: Byte)
    requires k < 16 && d < 2
    ensures OrByte(k * 16, d * 8) == k * 16 + d * 8
  {
    Join(k, d * 8, 4, 16);
  }

  lemma QosField(x: nat, b: Byte, a: Byte)
    requires x < 32 && b < 8 && a == x * 8
    ensures OrByte(a, b) == a + b
  {
    Join(x, b, 3, 8);
  }

  lemma LowestBit(x: nat, r: Byte, a: Byte)
    requires x < 128 && r < 2 && a == x * 2
    ensures OrByte(a, r) == a + r
  {
    Join(x, r, 1, 2);
  }

  lemma HeaderFields(k: Byte, d: Byte, q: Byte, r: Byte)
    requires k < 16 && d < 2 && q < 4 && r < 2
    ensures OrByte(OrByte(OrByte(k * 16, d * 8), q * 2), r) == k * 16 + d * 8 + q * 2 + r
  {
    HighFields(k, d);
    QosField(2 * k + d, q * 2, k * 16 + d * 8);
    LowestBit(8 * k + 4 * d + q, r, k * 16 + d * 8 + q * 2);
  }

  lemma LowFlags(c: Byte, w: Byte, q: Byte)
    requires c < 2 && w < 2 && q < 4
    ensures OrByte(OrByte(c * 2, w * 4), q * 8) == c * 2 + w * 4 + q * 8
  {
    Join(w, c * 2, 2, 4);
    Join(q, c * 2 + w * 4, 3, 8);
  }

  lemma HighFlags(x: Byte, r: Byte, p: Byte, u: Byte)
    requires x < 32 && r < 2 && p < 2 && u < 2
    ensures OrByte(OrByte(OrByte(x, r * 32), p * 64), u * 128) == x + r * 32 + p * 64 + u * 128
  {
    Join(r, x, 5, 32);
    Join(p, x + r * 32, 6, 64);
    Join(u, x + r * 32 + p * 64, 7, 128);
  }

  lemma HeaderShifts(h: Header)
    requires h.kind < 16 && h.qos < 4
    ensures Shl(h.kind, 16) == h.kind * 16 && Shl(Bit(h.dup), 8) == Bit(h.dup) * 8 && Shl(h.qos, 2) == h.qos * 2
  {
  }

  lemma HeaderByteIsBits(h: Header)
    ensures HeaderByte(h) == HeaderBits(h)
  {
    if h.kind < 16 && h.qos < 4 {
      HeaderShifts(h);
      HeaderFields(h.kind, Bit(h.dup), h.qos, Bit(h.retain));
    }
  }

  lemma FlagsJoin(c: Byte, w: Byte, q: Byte, r: Byte, p: Byte, u: Byte)
    requires c < 2 && w < 2 && q < 4 && r < 2 && p < 2 && u < 2
    ensures OrByte(OrByte(OrByte(OrByte(OrByte(c * 2, w * 4), q * 8), r * 32), p * 64), u * 128) ==
            c * 2 + w * 4 + q * 8 + r * 32 + p * 64 + u * 128
  {
    LowFlags(c, w, q);
    HighFlags(c * 2 + w * 4 + q * 8, r, p, u);
  }

  lemma FlagShifts(f: ConnectFlags)
    requires f.willQos < 4
    ensures Shl(Bit(f.cleanSession), 2) == Bit(f.cleanSession) * 2 && Shl(Bit(f.willFlag), 4) == Bit(f.willFlag) * 4
    ensures Shl(f.willQos, 8) == f.willQos * 8 && Shl(Bit(f.willRetain), 32) == Bit(f.willRetain) * 32
    ensures Shl(Bit(f.passwordFlag), 64) == Bit(f.passwordFlag) * 64
    ensures Shl(Bit(f.usernameFlag), 128) == Bit(f.usernameFlag) * 128
  {
  }

  lemma FlagsByteIsBits(f: ConnectFlags)
    ensures FlagsByte(f) == FlagsBits(f)
  {
    if f.willQos < 4 {
      FlagShifts(f);
      FlagsJoin(Bit(f.cleanSession), Bit(f.willFlag), f.willQos, Bit(f.willRetain), Bit(f.passwordFlag), Bit(f.usernameFlag));
    }
  }

  lemma HeaderSplit(k: nat, d: nat, q: nat, r: nat, b: nat)
    requires d < 2 && q < 4 && r < 2 && b == 16 * k + 8 * d + 2 * q + r
    ensures b / 16 == k && b / 8 % 2 == d && b / 2 % 4 == q && b % 2 == r
  {
    assert b / 8 == 2 * k + d;
    assert b / 2 == 8 * k + 4 * d + q;
  }

  lemma HeaderBack(h: Header)
    requires h.kind < 16 && h.qos < 4
    ensures HeaderOf(HeaderByte(h), h.remaining) == h
  {
    HeaderSplit(h.kind, Bit(h.dup), h.qos, Bit(h.retain), HeaderByte(h));
  }

  lemma FlagsSplit(c: nat, w: nat, q: nat, r: nat, p: nat, u: nat, b: nat)
    requires c < 2 && w < 2 && q < 4 && r < 2 && p < 2 && u < 2
    requires b == 2 * c + 4 * w + 8 * q + 32 * r + 64 * p + 128 * u
    ensures b % 2 == 0 && b / 2 % 2 == c && b / 4 % 2 == w && b / 8 % 4 == q
    ensures b / 32 % 2 == r && b / 64 % 2 == p && b / 128 % 2 == u
  {
    assert b / 2 == c + 2 * w + 4 * q + 16 * r + 32 * p + 64 * u;
    assert b / 4 == w + 2 * q + 8 * r + 16 * p + 32 * u;
    assert b / 8 == q + 4 * r + 8 * p + 16 * u;
    assert b / 32 == r + 2 * p + 4 * u;
    assert b / 64 == p + 2 * u;
    assert b / 128 == u;
  }

  lemma FlagsBack(f: ConnectFlags)
    requires f.willQos < 4
    ensures FlagsOf(FlagsByte(f)) == f.(reservedBit := 0)
  {
    FlagsSplit(Bit(f.cleanSession), Bit(f.willFlag), f.willQos, Bit(f.willRetain), Bit(f.passwordFlag),
               Bit(f.usernameFlag), FlagsByte(f));
  }

  // ---------- writing ----------

  function Optional(flag: bool, f: Bytes): Bytes {
    if flag then EncodeBytes(f) else []
  }

  /** Topics with their QoS, in turn. */
  function EncodePairs(topics: seq<Bytes>, qoss: Bytes): Bytes
    requires |topics| <= |qoss|
  {
    if topics == [] then [] else EncodeBytes(topics[0]) + ([qoss[0]] + EncodePairs(topics[1..], qoss[1..]))
  }

  function EncodeTopics(topics: seq<Bytes>): Bytes {
    if topics == [] then [] else EncodeBytes(topics[0]) + EncodeTopics(topics[1..])
  }

  /** A subscribe with fewer QoS than topics makes the writer panic. */
  predicate Writable(p: Packet) {
    p.Subscribe? ==> |p.topics| <= |p.qoss|
  }

  function Body(p: Packet): Bytes
    requires Writable(p)
  {
    match p
    case Connect(_, name, version, flags, keepalive, id, willTopic, willMessage, username, password, other) =>
      EncodeBytes(name) + ([version] + ([FlagsByte(flags)] + (EncodeUint16(keepalive) + (EncodeBytes(id) +
      (Optional(flags.willFlag, willTopic) + (Optional(flags.willFlag, willMessage) +
      (Optional(flags.usernameFlag, username) + (Optional(flags.passwordFlag, password) + EncodeBytes(other)))))))))
    case Connack(_, present, code) => [Bit(present)] + [code]
    case Publish(h, topic, id, payload) => EncodeBytes(topic) + ((if h.qos > 0 then EncodeUint16(id) else []) + payload)
    case Acknowledgement(_, id) => EncodeUint16(id)
    case Subscribe(_, id, topics, qoss) => EncodeUint16(id) + EncodePairs(topics, qoss)
    case Suback(_, id, codes) => EncodeUint16(id) + codes
    case Unsubscribe(_, id, topics) => EncodeUint16(id) + EncodeTopics(topics)
    case Signal(_) => []
  }

  /** The packet as writing leaves it: with its remaining length filled in, except for the
      packets without a body, which are written with whatever length they carry. */
  function Written(p: Packet): Packet
    requires Writable(p)
  {
    if p.Signal? then p else p.(h := p.h.(remaining := |Body(p)|))
  }

  function Write(p: Packet): Bytes
    requires Writable(p)
  {
    [HeaderByte(p.h)] + (EncodeLength(Written(p).h.remaining) + Body(p))
  }

  // ---------- reading ----------

  datatype Unpacked = Good(p: Packet) | Bad

  function DecodeOptional(flag: bool, b: Bytes): Got<Bytes> {
    if flag then DecodeBytes(b) else Got([], b)
  }

  /** The trailing field: missing is empty. */
  function DecodeLast(b: Bytes): Bytes {
    match DecodeBytes(b)
    case Fail => []
    case Got(f, _) => f
  }

  datatype Tail = Tail(willTopic: Bytes, willMessage: Bytes, username: Bytes, password: Bytes, other: Bytes)

  function UnpackTail(f: ConnectFlags, b: Bytes): Got<Tail> {
    match DecodeOptional(f.willFlag, b)
    case Fail => Fail
    case Got(willTopic, b1) =>
      match DecodeOptional(f.willFlag, b1)
      case Fail => Fail
      case Got(willMessage, b2) =>
        match DecodeOptional(f.usernameFlag, b2)
        case Fail => Fail
        case Got(username, b3) =>
          match DecodeOptional(f.passwordFlag, b3)
          case Fail => Fail
          case Got(password, b4) => Got(Tail(willTopic, willMessage, username, password, DecodeLast(b4)), [])
  }

  function UnpackConnect(h: Header, b: Bytes): Unpacked {
    match DecodeBytes(b)
    case Fail => Bad
    case Got(name, b1) =>
      match DecodeByte(b1)
      case Fail => Bad
      case Got(version, b2) =>
        match DecodeByte(b2)
        case Fail => Bad
        case Got(options, b3) =>
          match DecodeUint16(b3)
          case Fail => Bad
          case Got(keepalive, b4) =>
            match DecodeBytes(b4)
            case Fail => Bad
            case Got(id, b5) =>
              match UnpackTail(FlagsOf(options), b5)
              case Fail => Bad
              case Got(t, _) =>
                Good(Connect(h, name, version, FlagsOf(options), keepalive, id,
                             t.willTopic, t.willMessage, t.username, t.password, t.other))
  }

  function UnpackPublish(h: Header, b: Bytes): Unpacked {
    match DecodeBytes(b)
    case Fail => Bad
    case Got(topic, b1) =>
      if h.qos > 0 then
        match DecodeUint16(b1)
        case Fail => Bad
        case Got(id, b2) => UnpackPayload(h, topic, id, h.remaining - (|topic| + 4), b2)
      else UnpackPayload(h, topic, 0, h.remaining - (|topic| + 2), b1)
  }

  function UnpackPayload(h: Header, topic: Bytes, id: Word, length: int, b: Bytes): Unpacked {
    if length < 0 then Bad
    else
      match ReadSome(b, length)
      case Fail => Bad
      case Got(payload, _) => Good(Publish(h, topic, id, payload))
  }

  datatype Pairs = Pairs(topics: seq<Bytes>, qoss: Bytes)

  datatype Pair = Pair(topic: Bytes, qos: Byte)

  function DecodePair(b: Bytes): Got<Pair> {
    match DecodeBytes(b)
    case Fail => Fail
    case Got(topic, b1) =>
      match DecodeByte(b1)
      case Fail => Fail
      case Got(qos, b2) => Got(Pair(topic, qos), b2)
  }

  /** The length-driven loop of a subscribe, over the reading of one pair. */
  function DecodePairs(one: Bytes -> Got<Pair>, b: Bytes, length: int): Got<Pairs>
    decreases length
  {
    if length <= 0 then Got(Pairs([], []), b)
    else
      match one(b)
      case Fail => Fail
      case Got(pair, b1) =>
        match DecodePairs(one, b1, length - (2 + |pair.topic| + 1))
        case Fail => Fail
        case Got(more, b2) => Got(Pairs([pair.topic] + more.topics, [pair.qos] + more.qoss), b2)
  }

  /** The loop of an unsubscribe: until a read fails or gives an empty topic. */
  function DecodeTopics(b: Bytes): (topics: seq<Bytes>)
    ensures AllFit(topics) && NoneEmpty(topics)
    decreases |b|
  {
    match DecodeBytes(b)
    case Fail => []
    case Got(topic, b1) => if topic == [] then [] else [topic] + DecodeTopics(b1)
  }

  function UnpackWithId(h: Header, id: Word, b: Bytes): Unpacked {
    if h.kind == SUBSCRIBE then
      match DecodePairs(DecodePair, b, h.remaining - 2)
      case Fail => Bad
      case Got(ps, _) => Good(Subscribe(h, id, ps.topics, ps.qoss))
    else if h.kind == SUBACK then Good(Suback(h, id, b))
    else if h.kind == UNSUBSCRIBE then Good(Unsubscribe(h, id, DecodeTopics(b)))
    else Good(Acknowledgement(h, id))
  }

  function UnpackConnack(h: Header, b: Bytes): Unpacked {
    match DecodeByte(b)
    case Fail => Bad
    case Got(flags, b1) =>
      match DecodeByte(b1)
      case Fail => Bad
      case Got(code, _) => Good(Connack(h, flags % 2 > 0, code))
  }

  /** By the kind of packet; a kind that does not exist is refused before this. */
  function Unpack(h: Header, b: Bytes): Unpacked {
    if !(1 <= h.kind <= 14) then Bad
    else if h.kind == CONNECT then UnpackConnect(h, b)
    else if h.kind == CONNACK then UnpackConnack(h, b)
    else if h.kind == PUBLISH then UnpackPublish(h, b)
    else if IsSignal(h.kind) then Good(Signal(h))
    else
      match DecodeUint16(b)
      case Fail => Bad
      case Got(id, b1) => UnpackWithId(h, id, b1)
  }

  /** Packet, with the rest of the stream; or a stream that ended inside a packet; or a
      packet that could not be understood. */
  datatype ReadResult = Read(p: Packet, rest: Bytes) | Short | Malformed(rest: Bytes)

  /** How bodies are taken apart; framing does not depend on it. */
  type Unpacker = (Header, Bytes) -> Unpacked

  /** The rest of a packet whose fixed header has been read. */
  function ReadBody(unpack: Unpacker, h: Header, s: Bytes): ReadResult {
    if !(1 <= h.kind <= 14) then Malformed(s)
    else
      match ReadFull(s, h.remaining)
      case Fail => Short
      case Got(body, rest) =>
        match unpack(h, body)
        case Bad => Malformed(rest)
        case Good(p) => Read(p, rest)
  }

  function ReadFrame(unpack: Unpacker, s: Bytes): ReadResult {
    match ReadFull(s, 1)
    case Fail => Short
    case Got(first, s1) =>
      match DecodeLength(s1)
      case Fail => Short
      case Got(n, s2) => ReadBody(unpack, HeaderOf(first[0], n), s2)
  }

  function ReadPacket(s: Bytes): ReadResult {
    ReadFrame(Unpack, s)
  }

  // ---------- what can be read back ----------

  predicate KindOk(p: Packet) {
    match p
    case Connect(h, _, _, _, _, _, _, _, _, _, _) => h.kind == CONNECT
    case Connack(h, _, _) => h.kind == CONNACK
    case Publish(h, _, _, _) => h.kind == PUBLISH
    case Acknowledgement(h, _) => IsAcknowledgement(h.kind)
    case Subscribe(h, _, _, _) => h.kind == SUBSCRIBE
    case Suback(h, _, _) => h.kind == SUBACK
    case Unsubscribe(h, _, _) => h.kind == UNSUBSCRIBE
    case Signal(h) => IsSignal(h.kind)
  }

  predicate Fits(f: Bytes) {
    |f| < 65536
  }

  predicate AllFit(topics: seq<Bytes>) {
    forall i | 0 <= i < |topics| :: Fits(topics[i])
  }

  predicate NoneEmpty(topics: seq<Bytes>) {
    forall i | 0 <= i < |topics| :: topics[i] != []
  }

  /** What the flags leave out is empty. */
  predicate TailOk(f: ConnectFlags, t: Tail) {
    && (!f.willFlag ==> t.willTopic == [] && t.willMessage == [])
    && (!f.usernameFlag ==> t.username == []) && (!f.passwordFlag ==> t.password == [])
    && Fits(t.willTopic) && Fits(t.willMessage) && Fits(t.username) && Fits(t.password) && Fits(t.other)
  }

  predicate FieldsOk(p: Packet) {
    match p
    case Connect(_, name, _, f, _, id, willTopic, willMessage, username, password, other) =>
      Fits(name) && Fits(id) && f.willQos < 4 && TailOk(f, Tail(willTopic, willMessage, username, password, other))
    case Publish(h, topic, id, _) => Fits(topic) && (h.qos == 0 ==> id == 0)
    case Subscribe(_, _, topics, qoss) => |qoss| == |topics| && AllFit(topics)
    case Unsubscribe(_, _, topics) => AllFit(topics) && NoneEmpty(topics)
    case _ => true
  }

  /** Everything a packet must meet to be read back, except that the reserved bit of a
      connect, which is read and never written, is clear. */
  predicate Readable(p: Packet) {
    KindOk(p) && p.h.qos < 4 && Writable(p) && FieldsOk(p)
  }

  predicate WellFormed(p: Packet) {
    && Readable(p) && |Body(p)| < MAX_LENGTH
    && (p.Signal? ==> p.h.remaining == 0)
    && (p.Connect? ==> p.flags.reservedBit == 0)
  }

  // ---------- bodies ----------

  lemma OptionalBack(flag: bool, f: Bytes, rest: Bytes)
    requires Fits(f) && (!flag ==> f == [])
    ensures DecodeOptional(flag, Optional(flag, f) + rest) == Got(f, rest)
  {
    if flag {
      BytesBack(f, rest);
    } else {
      assert [] + rest == rest;
    }
  }

  function TailBytes(f: ConnectFlags, t: Tail): Bytes {
    Optional(f.willFlag, t.willTopic) + (Optional(f.willFlag, t.willMessage) +
    (Optional(f.usernameFlag, t.username) + (Optional(f.passwordFlag, t.password) + EncodeBytes(t.other))))
  }

  lemma TailBack(f: ConnectFlags, t: Tail)
    requires TailOk(f, t)
    ensures UnpackTail(f, TailBytes(f, t)) == Got(t, [])
  {
    var b4 := EncodeBytes(t.other);
    var b3 := Optional(f.passwordFlag, t.password) + b4;
    var b2 := Optional(f.usernameFlag, t.username) + b3;
    var b1 := Optional(f.willFlag, t.willMessage) + b2;
    OptionalBack(f.willFlag, t.willTopic, b1);
    OptionalBack(f.willFlag, t.willMessage, b2);
    OptionalBack(f.usernameFlag, t.username, b3);
    OptionalBack(f.passwordFlag, t.password, b4);
    BytesBack(t.other, []);
    assert b4 + [] == b4;
  }

  lemma ConnectBack(p: Packet)
    requires p.Connect? && Readable(p)
    ensures UnpackConnect(p.h, Body(p)) == Good(p.(flags := p.flags.(reservedBit := 0)))
  {
    var t := Tail(p.willTopic, p.willMessage, p.username, p.password, p.other);
    var b5 := TailBytes(p.flags, t);
    var b4 := EncodeBytes(p.clientIdentifier) + b5;
    var b3 := EncodeUint16(p.keepalive) + b4;
    var b2 := [FlagsByte(p.flags)] + b3;
    var b1 := [p.protocolVersion] + b2;
    assert Body(p) == EncodeBytes(p.protocolName) + b1;
    BytesBack(p.protocolName, b1);
    ByteBack(p.protocolVersion, b2);
    ByteBack(FlagsByte(p.flags), b3);
    Uint16Back(p.keepalive, b4);
    BytesBack(p.clientIdentifier, b5);
    FlagsBack(p.flags);
    TailSameFlags(p.flags, b5);
    TailBack(p.flags, t);
  }

  lemma TailSameFlags(f: ConnectFlags, b: Bytes)
    ensures UnpackTail(f.(reservedBit := 0), b) == UnpackTail(f, b)
  {
  }

  lemma PublishBack(p: Packet)
    requires p.Publish? && Readable(p)
    ensures UnpackPublish(Written(p).h, Body(p)) == Good(Written(p))
  {
    var h := Written(p).h;
    var payload := p.payload;
    var b1 := (if p.h.qos > 0 then EncodeUint16(p.messageID) else []) + payload;
    BytesBack(p.topicName, b1);
    Uint16Back(p.messageID, payload);
    assert [] + payload == payload;
    assert payload[..|payload|] + Zeros(0) == payload;
    assert payload == [] ==> ReadSome(payload, 0) == Got([], []) by { assert Zeros(0) == []; }
    assert ReadSome(payload, |payload|).value == payload;
    assert h.remaining - (|p.topicName| + (if p.h.qos > 0 then 4 else 2)) == |payload|;
  }

  lemma PairBack(topic: Bytes, qos: Byte, more: Bytes)
    requires Fits(topic)
    ensures DecodePair(EncodeBytes(topic) + ([qos] + more)) == Got(Pair(topic, qos), more)
  {
    BytesBack(topic, [qos] + more);
    ByteBack(qos, more);
  }

  lemma PairsStep(one: Bytes -> Got<Pair>, b: Bytes, length: int, pair: Pair, more: Bytes, tail: Pairs, rest: Bytes)
    requires length > 0 && one(b) == Got(pair, more)
    requires DecodePairs(one, more, length - (2 + |pair.topic| + 1)) == Got(tail, rest)
    ensures DecodePairs(one, b, length) == Got(Pairs([pair.topic] + tail.topics, [pair.qos] + tail.qoss), rest)
  {
  }

  lemma {:induction false} PairsBack(one: Bytes -> Got<Pair>, topics: seq<Bytes>, qoss: Bytes)
    requires |qoss| == |topics| && AllFit(topics)
    requires forall t, q, more | Fits(t) :: one(EncodeBytes(t) + ([q] + more)) == Got(Pair(t, q), more)
    ensures DecodePairs(one, EncodePairs(topics, qoss), |EncodePairs(topics, qoss)|) == Got(Pairs(topics, qoss), [])
    decreases |topics|
  {
    if topics != [] {
      var b, more := EncodePairs(topics, qoss), EncodePairs(topics[1..], qoss[1..]);
      PairsBack(one, topics[1..], qoss[1..]);
      PairsStep(one, b, |b|, Pair(topics[0], qoss[0]), more, Pairs(topics[1..], qoss[1..]), []);
      assert [topics[0]] + topics[1..] == topics && [qoss[0]] + qoss[1..] == qoss;
    }
  }

  lemma TopicStep(topic: Bytes, more: Bytes)
    requires Fits(topic)
    ensures DecodeTopics(EncodeBytes(topic) + more) == if topic == [] then [] else [topic] + DecodeTopics(more)
  {
    BytesBack(topic, more);
  }

  lemma EncodeFirst(topic: Bytes, topics: seq<Bytes>)
    ensures EncodeTopics([topic] + topics) == EncodeBytes(topic) + EncodeTopics(topics)
  {
    assert ([topic] + topics)[1..] == topics;
  }

  lemma {:induction false} TopicsBack(topics: seq<Bytes>)
    requires AllFit(topics) && NoneEmpty(topics)
    ensures DecodeTopics(EncodeTopics(topics)) == topics
    decreases |topics|
  {
    if topics != [] {
      TopicStep(topics[0], EncodeTopics(topics[1..]));
      TopicsBack(topics[1..]);
      assert [topics[0]] + topics[1..] == topics;
    }
  }

  lemma SubscribePairsBack(topics: seq<Bytes>, qoss: Bytes)
    requires |qoss| == |topics| && AllFit(topics)
    ensures DecodePairs(DecodePair, EncodePairs(topics, qoss), |EncodePairs(topics, qoss)|) == Got(Pairs(topics, qoss), [])
  {
    forall t: Bytes, q: Byte, more: Bytes | Fits(t)
      ensures DecodePair(EncodeBytes(t) + ([q] + more)) == Got(Pair(t, q), more)
    {
      PairBack(t, q, more);
    }
    PairsBack(DecodePair, topics, qoss);
  }

  /** The packets that start with an identifier. */
  predicate StartsWithId(p: Packet) {
    p.Acknowledgement? || p.Subscribe? || p.Suback? || p.Unsubscribe?
  }

  lemma IdBack(h: Header, id: Word, rest: Bytes)
    requires 1 <= h.kind <= 14 && h.kind != CONNECT && h.kind != CONNACK && h.kind != PUBLISH && !IsSignal(h.kind)
    ensures Unpack(h, EncodeUint16(id) + rest) == UnpackWithId(h, id, rest)
  {
    Uint16Back(id, rest);
  }

  lemma SubscribeBack(h: Header, id: Word, topics: seq<Bytes>, qoss: Bytes)
    requires h.kind == SUBSCRIBE && |qoss| == |topics| && AllFit(topics) && h.remaining == 2 + |EncodePairs(topics, qoss)|
    ensures UnpackWithId(h, id, EncodePairs(topics, qoss)) == Good(Subscribe(h, id, topics, qoss))
  {
    SubscribePairsBack(topics, qoss);
  }

  lemma UnsubscribeBack(h: Header, id: Word, topics: seq<Bytes>)
    requires h.kind == UNSUBSCRIBE && AllFit(topics) && NoneEmpty(topics)
    ensures UnpackWithId(h, id, EncodeTopics(topics)) == Good(Unsubscribe(h, id, topics))
  {
    TopicsBack(topics);
  }

  /** What follows the identifier. */
  function AfterId(p: Packet): Bytes
    requires StartsWithId(p) && Writable(p)
  {
    match p
    case Subscribe(_, _, topics, qoss) => EncodePairs(topics, qoss)
    case Suback(_, _, codes) => codes
    case Unsubscribe(_, _, topics) => EncodeTopics(topics)
    case Acknowledgement(_, _) => []
  }

  lemma BodyWithId(p: Packet)
    requires StartsWithId(p) && Writable(p)
    ensures Body(p) == EncodeUint16(p.messageID) + AfterId(p)
  {
    if p.Acknowledgement? {
      assert EncodeUint16(p.messageID) + [] == EncodeUint16(p.messageID);
    }
  }

  lemma AfterIdBack(p: Packet, h: Header)
    requires StartsWithId(p) && Readable(p) && h == p.h.(remaining := 2 + |AfterId(p)|)
    ensures UnpackWithId(h, p.messageID, AfterId(p)) == Good(p.(h := h))
  {
    match p
    case Subscribe(_, id, topics, qoss) => SubscribeBack(h, id, topics, qoss);
    case Unsubscribe(_, id, topics) => UnsubscribeBack(h, id, topics);
    case _ =>
  }

  lemma WithIdBack(p: Packet)
    requires StartsWithId(p) && Readable(p)
    ensures Unpack(Written(p).h, Body(p)) == Good(Written(p))
  {
    var h := Written(p).h;
    BodyWithId(p);
    IdBack(h, p.messageID, AfterId(p));
    AfterIdBack(p, h);
  }

  lemma ConnackBack(p: Packet)
    requires p.Connack?
    ensures UnpackConnack(p.h, Body(p)) == Good(p)
  {
    ByteBack(Bit(p.sessionPresent), [p.returnCode]);
    ByteBack(p.returnCode, []);
    assert [p.returnCode] + [] == [p.returnCode];
  }

  /** A body is read back, up to the reserved bit. */
  lemma UnpackBack(p: Packet)
    requires Readable(p)
    ensures Unpack(Written(p).h, Body(p)) == Good(Cleared(Written(p)))
  {
    match p
    case Connect(_, _, _, _, _, _, _, _, _, _, _) =>
      ConnectBack(Written(p));
      assert Body(Written(p)) == Body(p);
    case Connack(_, _, _) =>
      ConnackBack(Written(p));
      assert Body(Written(p)) == Body(p);
    case Publish(_, _, _, _) => PublishBack(p);
    case Signal(_) =>
    case _ => WithIdBack(p);
  }

  function Cleared(p: Packet): Packet {
    if p.Connect? then p.(flags := p.flags.(reservedBit := 0)) else p
  }

  // ---------- frames ----------

  /** Reading a frame: the fixed header comes back, and the body is read under it. */
  lemma HeaderFrame(unpack: Unpacker, first: Byte, n: nat, s: Bytes)
    requires n < MAX_LENGTH
    ensures ReadFrame(unpack, [first] + (EncodeLength(n) + s)) == ReadBody(unpack, HeaderOf(first, n), s)
  {
    var all := [first] + (EncodeLength(n) + s);
    assert all[..1] == [first] && all[1..] == EncodeLength(n) + s;
    LengthBackIff(n, s);
  }

  lemma BodyFrame(unpack: Unpacker, h: Header, body: Bytes, rest: Bytes)
    requires 1 <= h.kind <= 14 && h.remaining == |body|
    ensures ReadBody(unpack, h, body + rest) ==
            match unpack(h, body)
            case Bad => Malformed(rest)
            case Good(p) => Read(p, rest)
  {
    var s := body + rest;
    assert s[..|body|] == body && s[|body|..] == rest;
  }

  lemma FrameBack(unpack: Unpacker, h: Header, first: Byte, body: Bytes, rest: Bytes, p: Packet)
    requires 1 <= h.kind <= 14 && h.remaining == |body| < MAX_LENGTH && HeaderOf(first, h.remaining) == h
    requires unpack(h, body) == Good(p)
    ensures ReadFrame(unpack, [first] + (EncodeLength(|body|) + body) + rest) == Read(p, rest)
  {
    HeaderFrame(unpack, first, |body|, body + rest);
    BodyFrame(unpack, h, body, rest);
    Regroup([first], EncodeLength(|body|), body, rest);
  }

  lemma Regroup(a: Bytes, b: Bytes, c: Bytes, d: Bytes)
    ensures a + (b + c) + d == a + (b + (c + d))
  {
  }

  lemma WriteIsFrame(p: Packet)
    requires Writable(p) && (p.Signal? ==> p.h.remaining == 0)
    ensures Write(p) == [HeaderByte(Written(p).h)] + (EncodeLength(|Body(p)|) + Body(p))
  {
  }

  /** A readable packet comes back as writing left it, with the reserved bit clear. */
  lemma ReadableBack(p: Packet, rest: Bytes)
    requires Readable(p) && |Body(p)| < MAX_LENGTH && (p.Signal? ==> p.h.remaining == 0)
    ensures ReadPacket(Write(p) + rest) == Read(Cleared(Written(p)), rest)
  {
    var h := Written(p).h;
    WriteIsFrame(p);
    UnpackBack(p);
    HeaderBack(h);
    FrameBack(Unpack, h, HeaderByte(h), Body(p), rest, Cleared(Written(p)));
  }

  // ---------- what reading gives, whatever the bytes ----------

  lemma {:induction false} PairsFit(one: Bytes -> Got<Pair>, b: Bytes, length: int)
    requires forall b | one(b).Got? :: Fits(one(b).value.topic)
    ensures var d := DecodePairs(one, b, length); d.Got? ==> |d.value.qoss| == |d.value.topics| && AllFit(d.value.topics)
    decreases length
  {
    if length > 0 && one(b).Got? {
      PairsFit(one, one(b).rest, length - (2 + |one(b).value.topic| + 1));
    }
  }

  lemma SubscribePairsFit(b: Bytes, length: int)
    ensures var d := DecodePairs(DecodePair, b, length);
            d.Got? ==> |d.value.qoss| == |d.value.topics| && AllFit(d.value.topics)
  {
    forall c | DecodePair(c).Got?
      ensures Fits(DecodePair(c).value.topic)
    {
      PairFits(c);
    }
    PairsFit(DecodePair, b, length);
  }

  lemma PairFits(b: Bytes)
    requires DecodePair(b).Got?
    ensures Fits(DecodePair(b).value.topic)
  {
  }

  lemma OptionalFits(flag: bool, b: Bytes)
    ensures var d := DecodeOptional(flag, b); d.Got? ==> Fits(d.value) && (!flag ==> d.value == [])
  {
  }

  lemma TailFits(f: ConnectFlags, b: Bytes)
    ensures var d := UnpackTail(f, b); d.Got? ==> TailOk(f, d.value)
  {
    var d1 := DecodeOptional(f.willFlag, b);
    OptionalFits(f.willFlag, b);
    if d1.Got? {
      var d2 := DecodeOptional(f.willFlag, d1.rest);
      OptionalFits(f.willFlag, d1.rest);
      if d2.Got? {
        var d3 := DecodeOptional(f.usernameFlag, d2.rest);
        OptionalFits(f.usernameFlag, d2.rest);
        if d3.Got? {
          OptionalFits(f.passwordFlag, d3.rest);
          var d4 := DecodeOptional(f.passwordFlag, d3.rest);
        }
      }
    }
  }

  lemma ConnectReadable(h: Header, b: Bytes)
    requires h.kind == CONNECT && h.qos < 4
    ensures var u := UnpackConnect(h, b); u.Good? ==> u.p.Connect? && u.p.h == h && Readable(u.p)
  {
    var u := UnpackConnect(h, b);
    if u.Good? {
      var b3 := DecodeByte(DecodeByte(DecodeBytes(b).rest).rest).rest;
      var b4 := DecodeUint16(b3).rest;
      TailFits(u.p.flags, DecodeBytes(b4).rest);
    }
  }

  lemma SubscribeReadable(h: Header, b: Bytes)
    requires h.kind == SUBSCRIBE && h.qos < 4
    ensures var u := Unpack(h, b); u.Good? ==> u.p.h == h && Readable(u.p)
  {
    var d := DecodeUint16(b);
    if d.Got? {
      SubscribePairsFit(d.rest, h.remaining - 2);
    }
  }

  lemma UnpackReadable(h: Header, b: Bytes)
    requires h.qos < 4
    ensures var u := Unpack(h, b); u.Good? ==> u.p.h == h && Readable(u.p)
  {
    if h.kind == CONNECT {
      ConnectReadable(h, b);
    } else if h.kind == SUBSCRIBE {
      SubscribeReadable(h, b);
    }
  }

  /** What is unpacked is readable and keeps its header. */
  ghost predicate GivesReadable(unpack: Unpacker) {
    forall h: Header, b: Bytes | h.qos < 4 && unpack(h, b).Good? :: unpack(h, b).p.h == h && Readable(unpack(h, b).p)
  }

  lemma BodyTakes(unpack: Unpacker, h: Header, s: Bytes)
    requires GivesReadable(unpack) && h.qos < 4
    ensures var r := ReadBody(unpack, h, s);
            r.Read? ==> Readable(r.p) && r.p.h == h && |s| == |r.rest| + h.remaining && r.rest == s[h.remaining..]
  {
  }

  /** A read that succeeds takes exactly one packet, and what it gives is readable again. */
  ghost predicate TookOne(s: Bytes, r: ReadResult) {
    r.Read? ==>
      && Readable(r.p) && r.p.h.remaining < MAX_LENGTH
      && 1 <= |s| - |r.rest| - 1 - r.p.h.remaining <= 4
      && r.rest == s[|s| - |r.rest|..]
  }

  lemma FrameTakes(unpack: Unpacker, s: Bytes)
    requires GivesReadable(unpack)
    ensures TookOne(s, ReadFrame(unpack, s))
  {
    if ReadFrame(unpack, s).Read? {
      FrameParts(unpack, s);
      var d := DecodeLength(s[1..]);
      LengthBound(s[1..]);
      BodyTakes(unpack, HeaderOf(s[0], d.value), d.rest);
      PartsTaken(s, d, ReadBody(unpack, HeaderOf(s[0], d.value), d.rest));
    }
  }

  lemma FrameParts(unpack: Unpacker, s: Bytes)
    requires ReadFrame(unpack, s).Read?
    ensures s != [] && DecodeLength(s[1..]).Got?
    ensures var d := DecodeLength(s[1..]); ReadFrame(unpack, s) == ReadBody(unpack, HeaderOf(s[0], d.value), d.rest)
  {
  }

  /** One byte, then the length, then the body. */
  lemma PartsTaken(s: Bytes, d: Got<nat>, r: ReadResult)
    requires s != [] && d.Got? && d.value < MAX_LENGTH && 1 <= |s[1..]| - |d.rest| <= 4 && d.rest == s[1..][|s[1..]| - |d.rest|..]
    requires r.Read? && Readable(r.p) && r.p.h.remaining == d.value <= |d.rest| && r.rest == d.rest[d.value..]
    ensures TookOne(s, r)
  {
    SuffixOf(s, s[1..], d.rest, |s[1..]| - |d.rest|);
    SuffixOf(s, d.rest, r.rest, d.value);
  }

  lemma SuffixOf(s: Bytes, t: Bytes, u: Bytes, k: nat)
    requires |t| <= |s| && t == s[|s| - |t|..] && k <= |t| && u == t[k..]
    ensures |u| <= |s| && u == s[|s| - |u|..]
  {
  }

  lemma UnpackGivesReadable()
    ensures GivesReadable(Unpack)
  {
    forall h: Header, b: Bytes | h.qos < 4 && Unpack(h, b).Good?
      ensures Unpack(h, b).p.h == h && Readable(Unpack(h, b).p)
    {
      UnpackReadable(h, b);
    }
  }

  /** On any bytes: a packet that was read is readable again, and took exactly its fixed
      header's byte, one to four bytes of length, and its remaining length. */
  lemma ReadTakesOnePacket(s: Bytes)
    ensures TookOne(s, ReadPacket(s))
  {
    UnpackGivesReadable();
    FrameTakes(Unpack, s);
  }

  // ---------- the round trip ----------

  /** A frame written without a body, read back with nothing of the rest taken. */
  lemma BareFrame(unpack: Unpacker, first: Byte, n: nat, p: Packet, rest: Bytes)
    requires GivesReadable(unpack) && n < MAX_LENGTH
    requires ReadFrame(unpack, [first] + (EncodeLength(n) + rest)) == Read(p, rest)
    ensures n == 0
  {
    HeaderFrame(unpack, first, n, rest);
    BodyTakes(unpack, HeaderOf(first, n), rest);
  }

  lemma SignalIsBare(p: Packet, rest: Bytes)
    requires p.Signal?
    ensures Write(p) + rest == [HeaderByte(p.h)] + (EncodeLength(p.h.remaining) + rest)
  {
    assert EncodeLength(p.h.remaining) + [] == EncodeLength(p.h.remaining);
  }

  lemma SignalTakesNothing(p: Packet, rest: Bytes)
    requires p.Signal? && p.h.remaining < MAX_LENGTH && ReadPacket(Write(p) + rest) == Read(p, rest)
    ensures p.h.remaining == 0
  {
    SignalIsBare(p, rest);
    UnpackGivesReadable();
    BareFrame(Unpack, HeaderByte(p.h), p.h.remaining, p, rest);
  }

  /** A packet is read back as it was written if and only if it is well-formed: QoS at most
      3, strings of at most 65535 bytes, fewer than 2^28 bytes in all, no empty topic to
      unsubscribe from, no identifier without QoS, and nothing in fields that are not sent. */
  lemma RoundTripIff(p: Packet, rest: Bytes)
    requires Writable(p)
    ensures ReadPacket(Write(p) + rest) == Read(Written(p), rest) <==> WellFormed(p)
  {
    if ReadPacket(Write(p) + rest) == Read(Written(p), rest) {
      BackMeansReadable(p, rest);
      ReadableBack(p, rest);
    }
    if WellFormed(p) {
      ReadableBack(p, rest);
    }
  }

  lemma BackMeansReadable(p: Packet, rest: Bytes)
    requires Writable(p) && ReadPacket(Write(p) + rest) == Read(Written(p), rest)
    ensures Readable(p) && |Body(p)| < MAX_LENGTH && (p.Signal? ==> p.h.remaining == 0)
  {
    ReadTakesOnePacket(Write(p) + rest);
    ReadableWritten(p);
    if p.Signal? {
      SignalTakesNothing(p, rest);
    }
  }

  lemma ReadableWritten(p: Packet)
    requires Writable(p)
    ensures Readable(Written(p)) == Readable(p)
  {
  }

  // ---------- streams ----------

  function ReadOne(s: Bytes): Got<Packet> {
    match ReadPacket(s)
    case Read(p, rest) => Got(p, rest)
    case _ => Fail
  }

  /** Writing, and the packet as it arrives; nothing for a packet that cannot be written. */
  function WriteOne(p: Packet): Bytes {
    if Writable(p) then Write(p) else []
  }

  function Arrived(p: Packet): Packet {
    if Writable(p) then Written(p) else p
  }

  lemma OneBack(p: Packet, rest: Bytes)
    requires WellFormed(p)
    ensures ReadOne(WriteOne(p) + rest) == Got(Arrived(p), rest)
  {
    RoundTripIff(p, rest);
  }

  /** A stream of well-formed packets is read back packet by packet, whatever follows it. */
  lemma StreamRoundTrip(ps: seq<Packet>, rest: Bytes)
    requires forall i | 0 <= i < |ps| :: WellFormed(ps[i])
    ensures ReadMany(ReadOne, WriteMany(WriteOne, ps) + rest, |ps|) == Got(Each(Arrived, ps), rest)
  {
    forall i, r | 0 <= i < |ps|
      ensures ReadOne(WriteOne(ps[i]) + r) == Got(Arrived(ps[i]), r)
    {
      OneBack(ps[i], r);
    }
    ManyBack(WriteOne, ReadOne, Arrived, ps, rest);
  }

  // ---------- an exception worth knowing ----------

  /** An empty topic ends the list of an unsubscribe early: only the topics before it are
      read back. */
  lemma {:induction false} EmptyTopicCuts(before: seq<Bytes>, after: seq<Bytes>)
    requires AllFit(before) && NoneEmpty(before)
    ensures DecodeTopics(EncodeTopics(before + ([[]] + after))) == before
    decreases |before|
  {
    if before == [] {
      assert [] + ([[]] + after) == [[]] + after;
      EncodeFirst([], after);
      TopicStep([], EncodeTopics(after));
    } else {
      var more := before[1..] + ([[]] + after);
      assert before + ([[]] + after) == [before[0]] + more;
      EncodeFirst(before[0], more);
      TopicStep(before[0], EncodeTopics(more));
      EmptyTopicCuts(before[1..], after);
      assert [before[0]] + before[1..] == before;
    }
  }
}
