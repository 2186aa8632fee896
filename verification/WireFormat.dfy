/** The bytes of the control packets, in the terms of the MQTT 3.1.1 standard: the codes of
    its section 2.2.1 and the layouts of its chapter 3, against what the codec writes. */
module WireFormat {
  import opened PacketFields
  import opened Packets

  /** A string of section 1.5.3: two bytes of length, high byte first, and its bytes. */
  ghost function Text(f: Bytes): Bytes
    requires |f| < 65536
  {
    [|f| / 256, |f| % 256] + f
  }

  ghost function TextIf(there: bool, f: Bytes): Bytes
    requires |f| < 65536
  {
    if there then Text(f) else []
  }

  /** The payload of a SUBSCRIBE: each filter, followed by its QoS. */
  ghost function PairsLayout(topics: seq<Bytes>, qoss: Bytes): Bytes
    requires |topics| == |qoss| && AllFit(topics)
  {
    if topics == [] then []
    else
      var n := |topics| - 1;
      PairsLayout(topics[..n], qoss[..n]) + Text(topics[n]) + [qoss[n]]
  }

  /** The payload of an UNSUBSCRIBE: the filters in a row. */
  ghost function TopicsLayout(topics: seq<Bytes>): Bytes
    requires AllFit(topics)
  {
    if topics == [] then []
    else
      var n := |topics| - 1;
      TopicsLayout(topics[..n]) + Text(topics[n])
  }

  /** A CONNECT up to the client identifier, its flags from the highest bit down. */
  ghost function ConnectStart(name: Bytes, version: Byte, f: ConnectFlags, keepalive: Word, id: Bytes): Bytes
    requires Fits(name) && Fits(id) && f.willQos < 4
  {
    Text(name)
    + [version,
       (if f.usernameFlag then 128 else 0) + (if f.passwordFlag then 64 else 0) + (if f.willRetain then 32 else 0)
       + 8 * f.willQos + (if f.willFlag then 4 else 0) + (if f.cleanSession then 2 else 0),
       keepalive / 256, keepalive % 256]
    + Text(id)
  }

  ghost function ConnectRest(f: ConnectFlags, t: Tail): Bytes
    requires TailOk(f, t)
  {
    TextIf(f.willFlag, t.willTopic) + TextIf(f.willFlag, t.willMessage)
    + TextIf(f.usernameFlag, t.username) + TextIf(f.passwordFlag, t.password)
    + Text(t.other)
  }

  /** Variable header and payload. A connect ends in one more string than the standard has. */
  ghost function Layout(p: Packet): Bytes
    requires Readable(p)
  {
    match p
    case Connect(_, name, version, f, keepalive, id, willTopic, willMessage, username, password, other) =>
      ConnectStart(name, version, f, keepalive, id)
      + ConnectRest(f, Tail(willTopic, willMessage, username, password, other))
    case Connack(_, present, code) => [if present then 1 else 0, code]
    case Publish(h, topic, id, payload) => Text(topic) + (if h.qos == 0 then [] else [id / 256, id % 256]) + payload
    case Acknowledgement(_, id) => [id / 256, id % 256]
    case Subscribe(_, id, topics, qoss) => [id / 256, id % 256] + PairsLayout(topics, qoss)
    case Suback(_, id, codes) => [id / 256, id % 256] + codes
    case Unsubscribe(_, id, topics) => [id / 256, id % 256] + TopicsLayout(topics)
    case Signal(_) => []
  }

  lemma TextIs(f: Bytes)
    requires Fits(f)
    ensures EncodeBytes(f) == Text(f)
  {
  }

  lemma {:induction false} PairsAppend(topics: seq<Bytes>, qoss: Bytes, topic: Bytes, qos: Byte)
    requires |topics| == |qoss|
    ensures EncodePairs(topics + [topic], qoss + [qos]) == EncodePairs(topics, qoss) + (EncodeBytes(topic) + [qos])
    decreases |topics|
  {
    var ts, qs := topics + [topic], qoss + [qos];
    if topics == [] {
      assert ts[1..] == [] && qs[1..] == [];
      assert [qos] + [] == [qos];
    } else {
      assert ts[1..] == topics[1..] + [topic] && qs[1..] == qoss[1..] + [qos];
      PairsAppend(topics[1..], qoss[1..], topic, qos);
      Grouped(EncodeBytes(topics[0]), [qoss[0]], EncodePairs(topics[1..], qoss[1..]), EncodeBytes(topic) + [qos]);
    }
  }

  lemma Grouped(a: Bytes, b: Bytes, c: Bytes, d: Bytes)
    ensures a + (b + (c + d)) == a + (b + c) + d
  {
  }

  lemma {:induction false} PairsAre(topics: seq<Bytes>, qoss: Bytes)
    requires |topics| == |qoss| && AllFit(topics)
    ensures EncodePairs(topics, qoss) == PairsLayout(topics, qoss)
    decreases |topics|
  {
    if topics != [] {
      var n := |topics| - 1;
      PairsAre(topics[..n], qoss[..n]);
      PairsAppend(topics[..n], qoss[..n], topics[n], qoss[n]);
      TextIs(topics[n]);
      assert topics[..n] + [topics[n]] == topics && qoss[..n] + [qoss[n]] == qoss;
    }
  }

  lemma {:induction false} TopicsAppend(topics: seq<Bytes>, topic: Bytes)
    ensures EncodeTopics(topics + [topic]) == EncodeTopics(topics) + EncodeBytes(topic)
    decreases |topics|
  {
    var ts := topics + [topic];
    if topics == [] {
      assert ts[1..] == [];
    } else {
      assert ts[1..] == topics[1..] + [topic];
      TopicsAppend(topics[1..], topic);
    }
  }

  lemma {:induction false} TopicsAre(topics: seq<Bytes>)
    requires AllFit(topics)
    ensures EncodeTopics(topics) == TopicsLayout(topics)
    decreases |topics|
  {
    if topics != [] {
      var n := |topics| - 1;
      TopicsAre(topics[..n]);
      TopicsAppend(topics[..n], topics[n]);
      TextIs(topics[n]);
      assert topics[..n] + [topics[n]] == topics;
    }
  }

  lemma TextIfIs(there: bool, f: Bytes)
    requires Fits(f)
    ensures Optional(there, f) == TextIf(there, f)
  {
  }

  lemma Flat(a: Bytes, b: Byte, c: Byte, d: Bytes, e: Bytes, rest: Bytes)
    requires |d| == 2
    ensures a + ([b] + ([c] + (d + (e + rest)))) == a + [b, c, d[0], d[1]] + e + rest
  {
  }

  lemma FlatTail(a: Bytes, b: Bytes, c: Bytes, d: Bytes, e: Bytes)
    ensures a + (b + (c + (d + e))) == a + b + c + d + e
  {
  }

  lemma StartIs(name: Bytes, version: Byte, f: ConnectFlags, keepalive: Word, id: Bytes, rest: Bytes)
    requires Fits(name) && Fits(id) && f.willQos < 4
    ensures EncodeBytes(name) + ([version] + ([FlagsByte(f)] + (EncodeUint16(keepalive) + (EncodeBytes(id) + rest)))) ==
            ConnectStart(name, version, f, keepalive, id) + rest
  {
    TextIs(name);
    TextIs(id);
    Flat(Text(name), version, FlagsByte(f), EncodeUint16(keepalive), Text(id), rest);
  }

  lemma RestIs(f: ConnectFlags, t: Tail)
    requires TailOk(f, t)
    ensures TailBytes(f, t) == ConnectRest(f, t)
  {
    TextIfIs(f.willFlag, t.willTopic);
    TextIfIs(f.willFlag, t.willMessage);
    TextIfIs(f.usernameFlag, t.username);
    TextIfIs(f.passwordFlag, t.password);
    TextIs(t.other);
    FlatTail(TextIf(f.willFlag, t.willTopic), TextIf(f.willFlag, t.willMessage), TextIf(f.usernameFlag, t.username),
             TextIf(f.passwordFlag, t.password), Text(t.other));
  }

  lemma ConnectLayout(p: Packet)
    requires p.Connect? && Readable(p)
    ensures Body(p) == Layout(p)
  {
    var t := Tail(p.willTopic, p.willMessage, p.username, p.password, p.other);
    RestIs(p.flags, t);
    StartIs(p.protocolName, p.protocolVersion, p.flags, p.keepalive, p.clientIdentifier, TailBytes(p.flags, t));
  }

  lemma BodyIsLayout(p: Packet)
    requires Readable(p)
    ensures Body(p) == Layout(p)
  {
    match p
    case Connect(_, _, _, _, _, _, _, _, _, _, _) => ConnectLayout(p);
    case Subscribe(_, _, topics, qoss) => PairsAre(topics, qoss);
    case Unsubscribe(_, _, topics) => TopicsAre(topics);
    case _ =>
  }

  /** The packet type of section 2.2.1 that is the first half byte of each kind. */
  ghost predicate TypeOf(p: Packet, code: nat) {
    match p
    case Connect(_, _, _, _, _, _, _, _, _, _, _) => code == 1
    case Connack(_, _, _) => code == 2
    case Publish(_, _, _, _) => code == 3
    case Acknowledgement(_, _) => code in {4, 5, 6, 7, 11}
    case Subscribe(_, _, _, _) => code == 8
    case Suback(_, _, _) => code == 9
    case Unsubscribe(_, _, _) => code == 10
    case Signal(_) => code in {12, 13, 14}
  }

  /** Every packet that can be read back is written in its layout of the standard, behind its
      type and flags and the length of what follows. */
  lemma WrittenInLayout(p: Packet)
    requires Readable(p) && (p.Signal? ==> p.h.remaining == 0)
    ensures TypeOf(p, p.h.kind)
    ensures Write(p) ==
            [16 * p.h.kind + (if p.h.dup then 8 else 0) + 2 * p.h.qos + (if p.h.retain then 1 else 0)]
            + (EncodeLength(|Layout(p)|) + Layout(p))
  {
    BodyIsLayout(p);
    WriteIsFrame(p);
  }

  /** And whatever is read has the type its first half byte says, and the flags of the second. */
  lemma ReadByType(s: Bytes)
    requires ReadPacket(s).Read?
    ensures s != [] && TypeOf(ReadPacket(s).p, s[0] / 16)
    ensures var h := ReadPacket(s).p.h;
            h.kind == s[0] / 16 && h.dup == (s[0] / 8 % 2 == 1) && h.qos == s[0] / 2 % 4 && h.retain == (s[0] % 2 == 1)
  {
    UnpackGivesReadable();
    FrameParts(Unpack, s);
    var d := DecodeLength(s[1..]);
    BodyTakes(Unpack, HeaderOf(s[0], d.value), d.rest);
  }

  // ---------- what others send ----------

  /** A CONNECT as the standard has it, without the trailing string, is read with that string
      empty. */
  lemma StandardConnectRead(p: Packet)
    requires p.Connect? && Readable(p) && p.other == [] && p.flags.reservedBit == 0
    ensures |Body(p)| >= 2
    ensures UnpackConnect(p.h, Body(p)[..|Body(p)| - 2]) == Good(p)
  {
    var f := p.flags;
    var b5 := Bare(f, p.willTopic, p.willMessage, p.username, p.password);
    var b4 := EncodeBytes(p.clientIdentifier) + b5;
    var b3 := EncodeUint16(p.keepalive) + b4;
    var b2 := [FlagsByte(f)] + b3;
    var b1 := [p.protocolVersion] + b2;
    var b0 := EncodeBytes(p.protocolName) + b1;
    BytesBack(p.protocolName, b1);
    ByteBack(p.protocolVersion, b2);
    ByteBack(FlagsByte(f), b3);
    Uint16Back(p.keepalive, b4);
    BytesBack(p.clientIdentifier, b5);
    FlagsBack(f);
    BareBack(f, p.willTopic, p.willMessage, p.username, p.password);
    BareBody(p);
  }

  /** The optional fields alone. */
  ghost function Bare(f: ConnectFlags, willTopic: Bytes, willMessage: Bytes, username: Bytes, password: Bytes): Bytes {
    Optional(f.willFlag, willTopic) + (Optional(f.willFlag, willMessage)
    + (Optional(f.usernameFlag, username) + (Optional(f.passwordFlag, password) + [])))
  }

  lemma BareBack(f: ConnectFlags, willTopic: Bytes, willMessage: Bytes, username: Bytes, password: Bytes)
    requires TailOk(f, Tail(willTopic, willMessage, username, password, []))
    ensures UnpackTail(f, Bare(f, willTopic, willMessage, username, password)) ==
            Got(Tail(willTopic, willMessage, username, password, []), [])
  {
    var b3 := Optional(f.passwordFlag, password) + [];
    var b2 := Optional(f.usernameFlag, username) + b3;
    var b1 := Optional(f.willFlag, willMessage) + b2;
    OptionalBack(f.willFlag, willTopic, b1);
    OptionalBack(f.willFlag, willMessage, b2);
    OptionalBack(f.usernameFlag, username, b3);
    OptionalBack(f.passwordFlag, password, []);
    assert DecodeLast([]) == [];
  }

  lemma BareTail(f: ConnectFlags, t: Tail)
    requires t.other == []
    ensures TailBytes(f, t) == Bare(f, t.willTopic, t.willMessage, t.username, t.password) + [0, 0]
  {
    assert EncodeBytes([]) == [0, 0];
    Regroup5(Optional(f.willFlag, t.willTopic), Optional(f.willFlag, t.willMessage), Optional(f.usernameFlag, t.username),
             Optional(f.passwordFlag, t.password), [0, 0]);
  }

  lemma Regroup5(a: Bytes, b: Bytes, c: Bytes, d: Bytes, e: Bytes)
    ensures a + (b + (c + (d + e))) == a + (b + (c + (d + []))) + e
  {
  }

  lemma BareBody(p: Packet)
    requires p.Connect? && p.other == []
    ensures var b5 := Bare(p.flags, p.willTopic, p.willMessage, p.username, p.password);
            var b0 := EncodeBytes(p.protocolName) + ([p.protocolVersion] + ([FlagsByte(p.flags)] +
                      (EncodeUint16(p.keepalive) + (EncodeBytes(p.clientIdentifier) + b5))));
            |Body(p)| >= 2 && Body(p)[..|Body(p)| - 2] == b0
  {
    BareTail(p.flags, Tail(p.willTopic, p.willMessage, p.username, p.password, p.other));
    CutTwo(EncodeBytes(p.protocolName), [p.protocolVersion], [FlagsByte(p.flags)], EncodeUint16(p.keepalive),
           EncodeBytes(p.clientIdentifier), Bare(p.flags, p.willTopic, p.willMessage, p.username, p.password), [0, 0]);
  }

  lemma CutTwo(a: Bytes, b: Bytes, c: Bytes, d: Bytes, e: Bytes, f: Bytes, g: Bytes)
    requires |g| == 2
    ensures var all := a + (b + (c + (d + (e + (f + g)))));
            |all| >= 2 && all[..|all| - 2] == a + (b + (c + (d + (e + f))))
  {
  }

  /** The topic of a PUBLISH, and its identifier unless the QoS is 0. */
  ghost function PublishHead(h: Header, topic: Bytes, id: Word): Bytes {
    EncodeBytes(topic) + if h.qos > 0 then EncodeUint16(id) else []
  }

  /** A PUBLISH whose length says less than its topic and identifier take is refused, and one
      that says more when nothing is left; otherwise as many bytes as it says are the payload. */
  lemma PublishRefusedIff(h: Header, topic: Bytes, id: Word, payload: Bytes)
    requires h.kind == 3 && Fits(topic)
    ensures var n := h.remaining - |PublishHead(h, topic, id)|;
            var u := Unpack(h, PublishHead(h, topic, id) + payload);
            && (u == Bad <==> n < 0 || (n > 0 && payload == []))
            && (0 <= n <= |payload| && u.Good? ==> u == Good(Publish(h, topic, if h.qos > 0 then id else 0, payload[..n])))
  {
    HeadRead(h, topic, id, payload);
    assert Unpack(h, PublishHead(h, topic, id) + payload) == UnpackPublish(h, PublishHead(h, topic, id) + payload);
    var n := h.remaining - |PublishHead(h, topic, id)|;
    if n >= 0 {
      SomeExact(payload, n);
    }
  }

  lemma HeadRead(h: Header, topic: Bytes, id: Word, payload: Bytes)
    requires Fits(topic)
    ensures UnpackPublish(h, PublishHead(h, topic, id) + payload) ==
            UnpackPayload(h, topic, if h.qos > 0 then id else 0, h.remaining - |PublishHead(h, topic, id)|, payload)
  {
    var mid := if h.qos > 0 then EncodeUint16(id) else [];
    assert PublishHead(h, topic, id) + payload == EncodeBytes(topic) + (mid + payload);
    BytesBack(topic, mid + payload);
    if h.qos > 0 {
      Uint16Back(id, payload);
    } else {
      assert [] + payload == payload;
    }
  }

  lemma SomeExact(b: Bytes, n: nat)
    ensures ReadSome(b, n) == Fail <==> b == [] && n > 0
    ensures n <= |b| ==> (b == [] && n > 0) || ReadSome(b, n) == Got(b[..n], b[n..])
  {
    if n <= |b| {
      assert b[..n] + Zeros(0) == b[..n];
    }
  }

  /** The types 0 and 15 do not exist, and nothing is read of them. */
  lemma NoSuchType(s: Bytes)
    requires s != [] && (s[0] < 16 || s[0] >= 240)
    ensures !ReadPacket(s).Read?
  {
    if ReadPacket(s).Read? {
      ReadByType(s);
      assert false;
    }
  }

  // ---------- the standard's own examples ----------

  const PLAIN := Header(0, false, 0, false, 0)

  /** Section 3.1.2.11: protocol name MQTT, level 4, flags 11001110, keep alive 10. */
  lemma ConnectExample()
    ensures ConnectStart([77, 81, 84, 84], 4, ConnectFlags(true, true, 1, false, true, true, 0), 10, []) ==
            [0, 4, 77, 81, 84, 84, 4, 206, 0, 10, 0, 0]
  {
    assert Text([77, 81, 84, 84]) == [0, 4, 77, 81, 84, 84];
    assert Text([]) == [0, 0];
  }

  /** Section 3.3.2.3: topic a/b, identifier 10. */
  lemma PublishExample(payload: Bytes)
    ensures Body(Publish(PLAIN.(kind := 3, qos := 1), [97, 47, 98], 10, payload)) == [0, 3, 97, 47, 98, 0, 10] + payload
  {
    var topic: Bytes := [97, 47, 98];
    var id: Bytes := [0, 10];
    assert EncodeBytes(topic) == [0, 3, 97, 47, 98];
    assert EncodeUint16(10) == id;
  }

  /** Section 3.8.3: a/b with QoS 1, then c/d with QoS 2. */
  lemma SubscribeExample(id: Word)
    ensures Body(Subscribe(PLAIN.(kind := 8, qos := 1), id, [[97, 47, 98], [99, 47, 100]], [1, 2])) ==
            [id / 256, id % 256] + [0, 3, 97, 47, 98, 1, 0, 3, 99, 47, 100, 2]
  {
    var first, second: Bytes := [97, 47, 98], [99, 47, 100];
    var topics: seq<Bytes>, qoss: Bytes := [first, second], [1, 2];
    assert EncodeBytes(first) == [0, 3, 97, 47, 98] && EncodeBytes(second) == [0, 3, 99, 47, 100];
    assert topics[1..] == [second] && qoss[1..] == [2];
    var last, none: Bytes := [2], [];
    assert [second][1..] == [] && last[1..] == none;
    assert EncodePairs([second], last) == [0, 3, 99, 47, 100, 2];
    assert EncodePairs(topics, qoss) == [0, 3, 97, 47, 98, 1, 0, 3, 99, 47, 100, 2];
  }

  /** Section 3.10.3: the same filters. */
  lemma UnsubscribeExample(id: Word)
    ensures Body(Unsubscribe(PLAIN.(kind := 10, qos := 1), id, [[97, 47, 98], [99, 47, 100]])) ==
            [id / 256, id % 256] + [0, 3, 97, 47, 98, 0, 3, 99, 47, 100]
  {
    var first, second: Bytes := [97, 47, 98], [99, 47, 100];
    var topics := [first, second];
    assert EncodeBytes(first) == [0, 3, 97, 47, 98] && EncodeBytes(second) == [0, 3, 99, 47, 100];
    assert topics[1..] == [second] && [second][1..] == [];
    assert EncodeTopics([second]) == [0, 3, 99, 47, 100];
    assert EncodeTopics(topics) == [0, 3, 97, 47, 98, 0, 3, 99, 47, 100];
  }
}
