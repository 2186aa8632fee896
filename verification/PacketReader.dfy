/** The reading and writing loops of the codec, on a buffer that is consumed as it is read. */
module PacketReader {
  import opened PacketFields
  import opened Packets

  // ---------- the loops over the remaining length ----------

  /** The digits least significant first, the top bit set on all but the last. */
  method EncodeLengthLoop(length: nat) returns (enc: Bytes)
    ensures enc == EncodeLength(length)
  {
    enc := [];
    var n := length;
    while true
      invariant enc + EncodeLength(n) == EncodeLength(length)
      decreases n
    {
      var digit: Byte := n % 128;
      if n / 128 > 0 {
        enc := enc + [digit + 128];
        n := n / 128;
      } else {
        enc := enc + [digit];
        return;
      }
    }
  }

  lemma SevenBits(k: nat)
    ensures Pow2(k + 7) == 128 * Pow2(k)
  {
    assert Pow2(k + 1) == 2 * Pow2(k);
    assert Pow2(k + 2) == 4 * Pow2(k);
    assert Pow2(k + 3) == 8 * Pow2(k);
    assert Pow2(k + 4) == 16 * Pow2(k);
    assert Pow2(k + 5) == 32 * Pow2(k);
    assert Pow2(k + 6) == 64 * Pow2(k);
  }

  lemma DigitFits(value: nat, digit: nat, k: nat)
    requires value < Pow2(k) && digit < 128
    ensures value + digit * Pow2(k) < Pow2(k + 7)
  {
    SevenBits(k);
    assert digit * Pow2(k) <= 127 * Pow2(k);
  }

  lemma OrAbove(value: nat, shifted: nat, k: nat)
    requires value < Pow2(k) && Clear(shifted, k)
    ensures Or(value, shifted) == value + shifted
  {
    OrAdds(shifted, value, k);
  }

  /** The digit goes above what has been read. */
  method PutDigit(value: nat, digit: Byte, multiplier: nat) returns (r: nat)
    requires value < Pow2(multiplier) && digit < 128
    ensures r == value + digit * Pow2(multiplier) < Pow2(multiplier + 7)
  {
    ShiftClears(digit, multiplier);
    DigitFits(value, digit, multiplier);
    var shifted := digit * Pow2(multiplier);
    OrAbove(value, shifted, multiplier);
    r := Or(value, shifted);
  }

  /** What is left to read, put above what has been read. */
  function Above(value: nat, k: nat, d: Got<nat>): Got<nat> {
    match d
    case Fail => Fail
    case Got(v, rest) => Got(value + Pow2(k) * v, rest)
  }

  lemma OneMoreDigit(value: nat, k: nat, b: Bytes, digits: nat)
    requires b != [] && 1 <= digits <= 4 && b[0] >= 128
    ensures Above(value, k, DecodeDigits(b, digits)) ==
            Above(value + (b[0] - 128) * Pow2(k), k + 7, DecodeDigits(b[1..], digits - 1))
  {
    SevenBits(k);
    var d := DecodeDigits(b[1..], digits - 1);
    if d.Got? {
      assert Pow2(k) * (b[0] - 128 + 128 * d.value) == (b[0] - 128) * Pow2(k) + 128 * Pow2(k) * d.value;
    }
  }

  lemma LastDigit(value: nat, k: nat, b: Bytes, digits: nat)
    requires b != [] && 1 <= digits <= 4 && b[0] < 128
    ensures Above(value, k, DecodeDigits(b, digits)) == Got(value + b[0] * Pow2(k), b[1..])
  {
  }

  lemma NothingBelow(d: Got<nat>)
    ensures Above(0, 0, d) == d && Pow2(0) == 1
  {
  }

  lemma NothingAbove(value: nat, k: nat, b: Bytes)
    ensures Above(value, k, DecodeDigits(b, 0)) == Got(value, b)
  {
  }

  /** The function reads one topic with its QoS. */
  ghost predicate ReadsPairs(one: Bytes -> Got<Pair>) {
    forall b: Bytes {:trigger DecodePair(b)} :: one(b) == DecodePair(b)
  }

  // ---------- the buffer ----------

  class Buffer {
    var data: Bytes

    constructor (data: Bytes)
      ensures this.data == data
    {
      this.data := data;
    }

    method Read(n: nat) returns (v: Bytes, ok: bool)
      modifies this
      ensures ok == ReadSome(old(data), n).Got?
      ensures if ok then ReadSome(old(data), n) == Got(v, data) else data == old(data)
    {
      if |data| == 0 {
        assert data[..0] + Zeros(n) == Zeros(n);
        return Zeros(n), n == 0;
      }
      var m := if n <= |data| then n else |data|;
      v, ok := data[..m] + Zeros(n - m), true;
      data := data[m..];
    }

    /** One round of the length loop. */
    method ReadDigit(value: nat, multiplier: nat, ghost digits: nat) returns (r: nat, last: bool, ok: bool)
      requires 1 <= digits <= 4 && value < Pow2(multiplier)
      modifies this
      ensures !ok ==> Above(value, multiplier, DecodeDigits(old(data), digits)) == Fail
      ensures ok && last ==> Above(value, multiplier, DecodeDigits(old(data), digits)) == Got(r, data)
      ensures ok && !last ==>
        && r < Pow2(multiplier + 7)
        && Above(value, multiplier, DecodeDigits(old(data), digits)) == Above(r, multiplier + 7, DecodeDigits(data, digits - 1))
    {
      if |data| == 0 {
        return 0, false, false;
      }
      var digit := data[0];
      last, ok := digit < 128, true;
      if last {
        LastDigit(value, multiplier, data, digits);
        r := PutDigit(value, digit, multiplier);
      } else {
        OneMoreDigit(value, multiplier, data, digits);
        r := PutDigit(value, digit - 128, multiplier);
      }
      data := data[1..];
    }

    /** The variable-length integer: at most four rounds. */
    method ReadLength() returns (length: nat, ok: bool)
      modifies this
      ensures ok == DecodeLength(old(data)).Got?
      ensures ok ==> DecodeLength(old(data)) == Got(length, data)
    {
      length := 0;
      var multiplier := 0;
      ghost var digits: nat := 4;
      ghost var want := DecodeLength(data);
      NothingBelow(want);
      while multiplier < 27
        invariant digits <= 4 && multiplier == 7 * (4 - digits) && length < Pow2(multiplier)
        invariant want == Above(length, multiplier, DecodeDigits(data, digits))
        decreases digits
      {
        var last;
        length, last, ok := ReadDigit(length, multiplier, digits);
        if !ok || last {
          return;
        }
        multiplier := multiplier + 7;
        digits := digits - 1;
      }
      NothingAbove(length, multiplier, data);
      return length, true;
    }

    method ReadUint16() returns (n: Word, ok: bool)
      modifies this
      ensures ok == DecodeUint16(old(data)).Got?
      ensures ok ==> DecodeUint16(old(data)) == Got(n, data)
    {
      var v;
      v, ok := Read(2);
      n := if ok then v[0] as int * 256 + v[1] as int else 0;
    }

    method ReadByte() returns (x: Byte, ok: bool)
      modifies this
      ensures ok == DecodeByte(old(data)).Got?
      ensures ok ==> DecodeByte(old(data)) == Got(x, data)
    {
      var v;
      v, ok := Read(1);
      x := if ok then v[0] else 0;
    }

    method ReadString() returns (f: Bytes, ok: bool)
      modifies this
      ensures ok == DecodeBytes(old(data)).Got?
      ensures ok ==> DecodeBytes(old(data)) == Got(f, data)
    {
      var n;
      n, ok := ReadUint16();
      if !ok {
        return [], false;
      }
      f, ok := Read(n);
    }

    method ReadPair(ghost one: Bytes -> Got<Pair>) returns (pair: Pair, ok: bool)
      requires ReadsPairs(one)
      modifies this
      ensures ok == one(old(data)).Got?
      ensures ok ==> one(old(data)) == Got(pair, data)
    {
      assert one(data) == DecodePair(data);
      var topic, qos;
      topic, ok := ReadString();
      if !ok {
        return Pair([], 0), false;
      }
      qos, ok := ReadByte();
      pair := Pair(topic, qos);
    }

    /** The topics of a subscribe, as many as the remaining length asks for. */
    method ReadPairs(length: int, ghost one: Bytes -> Got<Pair>) returns (ps: Pairs, ok: bool)
      requires ReadsPairs(one)
      modifies this
      ensures ok == DecodePairs(one, old(data), length).Got?
      ensures ok ==> DecodePairs(one, old(data), length) == Got(ps, data)
    {
      ps, ok := Pairs([], []), true;
      var payloadLength := length;
      ghost var want := DecodePairs(one, data, length);
      FirstPairs(want);
      while payloadLength > 0
        invariant ok && want == After(ps, DecodePairs(one, data, payloadLength))
        decreases payloadLength
      {
        NextPair(one, ps, data, payloadLength);
        var pair;
        pair, ok := ReadPair(one);
        if !ok {
          return;
        }
        ps := Pairs(ps.topics + [pair.topic], ps.qoss + [pair.qos]);
        payloadLength := payloadLength - (2 + |pair.topic| + 1);
      }
      LastPairs(one, ps, data, payloadLength);
    }

    /** The topics of an unsubscribe, until a read fails or gives an empty one. */
    method ReadTopics() returns (topics: seq<Bytes>)
      modifies this
      ensures topics == DecodeTopics(old(data))
    {
      topics := [];
      while true
        invariant topics + DecodeTopics(data) == DecodeTopics(old(data))
        decreases |data|
      {
        var topic, ok := ReadString();
        if !ok || topic == [] {
          return;
        }
        topics := topics + [topic];
      }
    }

    method UnpackSubscribe(h: Header, id: Word) returns (u: Unpacked)
      requires h.kind == SUBSCRIBE
      modifies this
      ensures u == UnpackWithId(h, id, old(data))
    {
      var ps, ok := ReadPairs(h.remaining - 2, DecodePair);
      u := if ok then Good(Subscribe(h, id, ps.topics, ps.qoss)) else Bad;
    }

    method UnpackBody(h: Header) returns (u: Unpacked)
      modifies this
      ensures u == Unpack(h, old(data))
    {
      if h.kind == SUBSCRIBE || h.kind == UNSUBSCRIBE {
        var id, ok := ReadUint16();
        if !ok {
          return Bad;
        }
        if h.kind == SUBSCRIBE {
          u := UnpackSubscribe(h, id);
        } else {
          var topics := ReadTopics();
          u := Good(Unsubscribe(h, id, topics));
        }
      } else {
        u := Unpack(h, data);
      }
    }

    /** Reads one packet off the stream, and no byte more. */
    method ReadControlPacket() returns (r: ReadResult)
      modifies this
      ensures r == ReadPacket(old(data))
      ensures r.Read? ==> data == r.rest
    {
      if |data| == 0 {
        return Short;
      }
      ghost var all := data;
      var first := data[0];
      data := data[1..];
      assert all[..1] == [first];
      var n, ok := ReadLength();
      if !ok {
        return Short;
      }
      r := ReadRest(HeaderOf(first, n));
    }

    method ReadRest(h: Header) returns (r: ReadResult)
      modifies this
      ensures r == ReadBody(Unpack, h, old(data))
      ensures r.Read? ==> data == r.rest
    {
      if !(1 <= h.kind <= 14) {
        return Malformed(data);
      }
      if |data| < h.remaining {
        return Short;
      }
      var body := new Buffer(data[..h.remaining]);
      data := data[h.remaining..];
      var u := body.UnpackBody(h);
      match u
      case Bad => r := Malformed(data);
      case Good(p) => r := ReadResult.Read(p, data);
    }
  }

  /** Pairs already read, put before those still to come. */
  function After(ps: Pairs, d: Got<Pairs>): Got<Pairs> {
    match d
    case Fail => Fail
    case Got(more, rest) => Got(Pairs(ps.topics + more.topics, ps.qoss + more.qoss), rest)
  }

  lemma FirstPairs(d: Got<Pairs>)
    ensures After(Pairs([], []), d) == d
  {
    if d.Got? {
      assert [] + d.value.topics == d.value.topics && [] + d.value.qoss == d.value.qoss;
    }
  }

  lemma LastPairs(one: Bytes -> Got<Pair>, ps: Pairs, b: Bytes, length: int)
    requires length <= 0
    ensures After(ps, DecodePairs(one, b, length)) == Got(ps, b)
  {
    assert ps.topics + [] == ps.topics && ps.qoss + [] == ps.qoss;
  }

  lemma NextPair(one: Bytes -> Got<Pair>, ps: Pairs, b: Bytes, length: int)
    requires length > 0
    ensures one(b).Fail? ==> After(ps, DecodePairs(one, b, length)) == Fail
    ensures one(b).Got? ==>
      var p := one(b).value;
      After(ps, DecodePairs(one, b, length)) ==
      After(Pairs(ps.topics + [p.topic], ps.qoss + [p.qos]), DecodePairs(one, one(b).rest, length - (2 + |p.topic| + 1)))
  {
    if one(b).Got? {
      var p := one(b).value;
      var d := DecodePairs(one, one(b).rest, length - (2 + |p.topic| + 1));
      if d.Got? {
        assert ps.topics + ([p.topic] + d.value.topics) == ps.topics + [p.topic] + d.value.topics;
        assert ps.qoss + ([p.qos] + d.value.qoss) == ps.qoss + [p.qos] + d.value.qoss;
      }
    }
  }

  // ---------- the writing loops ----------

  method SubscribeBody(id: Word, topics: seq<Bytes>, qoss: Bytes) returns (body: Bytes)
    requires |topics| <= |qoss|
    ensures body == EncodeUint16(id) + EncodePairs(topics, qoss)
  {
    body := EncodeUint16(id);
    ghost var want := EncodeUint16(id) + EncodePairs(topics, qoss);
    for i := 0 to |topics|
      invariant body + EncodePairs(topics[i..], qoss[i..]) == want
    {
      assert topics[i..][1..] == topics[i + 1..] && qoss[i..][1..] == qoss[i + 1..];
      ghost var more := EncodePairs(topics[i + 1..], qoss[i + 1..]);
      assert body + (EncodeBytes(topics[i]) + ([qoss[i]] + more)) == body + EncodeBytes(topics[i]) + [qoss[i]] + more;
      body := body + EncodeBytes(topics[i]) + [qoss[i]];
    }
    assert body + [] == body;
  }

  method UnsubscribeBody(id: Word, topics: seq<Bytes>) returns (body: Bytes)
    ensures body == EncodeUint16(id) + EncodeTopics(topics)
  {
    body := EncodeUint16(id);
    ghost var want := EncodeUint16(id) + EncodeTopics(topics);
    for i := 0 to |topics|
      invariant body + EncodeTopics(topics[i..]) == want
    {
      assert topics[i..][1..] == topics[i + 1..];
      ghost var more := EncodeTopics(topics[i + 1..]);
      assert body + (EncodeBytes(topics[i]) + more) == body + EncodeBytes(topics[i]) + more;
      body := body + EncodeBytes(topics[i]);
    }
    assert body + [] == body;
  }
}
