/** The fields packets are made of: bits, 16-bit numbers, length-prefixed strings, and the
    variable-length remaining length; and the buffer they are read from. */
module PacketFields {

  type Byte = x: int | 0 <= x < 256
  type Bytes = seq<Byte>

  // ---------- bits ----------

  function Or(a: nat, b: nat): nat
    decreases a + b
  {
    if a == 0 && b == 0 then 0
    else (if a % 2 == 1 || b % 2 == 1 then 1 else 0) + 2 * Or(a / 2, b / 2)
  }

  function Pow2(k: nat): (p: nat)
    ensures p > 0
  {
    if k == 0 then 1 else 2 * Pow2(k - 1)
  }

  /** A shift to the left within a byte, by the bits of the given power of two. */
  function Shl(x: Byte, power: nat): Byte {
    x * power % 256
  }

  function Bit(b: bool): Byte {
    if b then 1 else 0
  }

  lemma {:induction false} OrZero(b: nat)
    ensures Or(0, b) == b == Or(b, 0)
  {
    if b > 0 {
      OrZero(b / 2);
    }
  }

  /** The k lowest bits are clear. */
  predicate Clear(a: nat, k: nat) {
    k == 0 || (a % 2 == 0 && Clear(a / 2, k - 1))
  }

  lemma {:induction false} ShiftClears(x: nat, k: nat)
    ensures Clear(x * Pow2(k), k)
    decreases k
  {
    if k > 0 {
      assert x * Pow2(k) == 2 * (x * Pow2(k - 1));
      ShiftClears(x, k - 1);
    }
  }

  /** Joining fields that do not overlap is adding them. */
  lemma {:induction false} OrAdds(a: nat, b: nat, k: nat)
    requires Clear(a, k) && b < Pow2(k)
    ensures Or(a, b) == a + b == Or(b, a)
    decreases k
  {
    if k == 0 {
      OrZero(a);
    } else {
      OrAdds(a / 2, b / 2, k - 1);
    }
  }

  // ---------- the buffer ----------

  /** A read either gives a value and the bytes after it, or fails. */
  datatype Got<T> = Got(value: T, rest: Bytes) | Fail

  function Zeros(n: nat): (z: Bytes)
    ensures |z| == n
  {
    seq(n, _ => 0)
  }

  /** Reading n bytes takes as many as there are, and leaves the rest of the target zero; it
      fails only on an empty buffer, and then only if something was asked for. */
  function ReadSome(b: Bytes, n: nat): Got<Bytes> {
    if b == [] && n > 0 then Fail
    else
      var m := if n <= |b| then n else |b|;
      Got(b[..m] + Zeros(n - m), b[m..])
  }

  /** Reading exactly n bytes, from a stream. */
  function ReadFull(b: Bytes, n: nat): Got<Bytes> {
    if n <= |b| then Got(b[..n], b[n..]) else Fail
  }

  function DecodeByte(b: Bytes): Got<Byte> {
    match ReadSome(b, 1)
    case Fail => Fail
    case Got(v, rest) => Got(v[0], rest)
  }

  function DecodeUint16(b: Bytes): Got<nat> {
    match ReadSome(b, 2)
    case Fail => Fail
    case Got(v, rest) => Got(v[0] as int * 256 + v[1] as int, rest)
  }

  /** Whatever is read has a length that fits the prefix, and costs at least one byte. */
  function DecodeBytes(b: Bytes): (d: Got<Bytes>)
    ensures d.Got? ==> |d.value| < 65536 && |d.rest| < |b|
  {
    match DecodeUint16(b)
    case Fail => Fail
    case Got(n, rest) => ReadSome(rest, n)
  }

  function EncodeUint16(n: nat): (e: Bytes)
    ensures |e| == 2
  {
    [n / 256 % 256, n % 256]
  }

  function EncodeBytes(f: Bytes): (e: Bytes)
    ensures |e| == |f| + 2
  {
    EncodeUint16(|f| % 65536) + f
  }

  lemma ByteBack(x: Byte, rest: Bytes)
    ensures DecodeByte([x] + rest) == Got(x, rest)
  {
    var b := [x] + rest;
    assert b[..1] + Zeros(0) == [x] && b[1..] == rest;
  }

  lemma Uint16Back(n: nat, rest: Bytes)
    requires n < 65536
    ensures DecodeUint16(EncodeUint16(n) + rest) == Got(n, rest)
  {
    var b := EncodeUint16(n) + rest;
    assert b[..2] + Zeros(0) == EncodeUint16(n) && b[2..] == rest;
  }

  lemma BytesBack(f: Bytes, rest: Bytes)
    requires |f| < 65536
    ensures DecodeBytes(EncodeBytes(f) + rest) == Got(f, rest)
  {
    assert EncodeBytes(f) + rest == EncodeUint16(|f|) + (f + rest);
    Uint16Back(|f|, f + rest);
    var b := f + rest;
    assert |f| <= |b| && b[..|f|] + Zeros(0) == f && b[|f|..] == rest;
    if b == [] {
      assert f == [] && Zeros(0) == [];
    }
  }

  // ---------- the remaining length ----------

  function EncodeLength(n: nat): (e: Bytes)
    ensures |e| >= 1
    decreases n
  {
    if n < 128 then [n] else [n % 128 + 128] + EncodeLength(n / 128)
  }

  /** At most four digits; after the fourth the value stands, whatever its top bit says. */
  function DecodeDigits(b: Bytes, digits: nat): Got<nat>
    requires digits <= 4
    decreases digits
  {
    if digits == 0 then Got(0, b)
    else if b == [] then Fail
    else if b[0] < 128 then Got(b[0], b[1..])
    else
      match DecodeDigits(b[1..], digits - 1)
      case Fail => Fail
      case Got(v, rest) => Got(b[0] - 128 + 128 * v, rest)
  }

  function DecodeLength(b: Bytes): Got<nat> {
    DecodeDigits(b, 4)
  }

  function Limit(digits: nat): (p: nat)
    ensures p > 0
  {
    if digits == 0 then 1 else 128 * Limit(digits - 1)
  }

  lemma {:induction false} DigitsBack(n: nat, digits: nat, rest: Bytes)
    requires 1 <= digits <= 4 && n < Limit(digits)
    ensures DecodeDigits(EncodeLength(n) + rest, digits) == Got(n, rest)
    ensures |EncodeLength(n)| <= digits
    decreases digits
  {
    var b := EncodeLength(n) + rest;
    assert Limit(0) == 1;
    if n < 128 {
      assert b[1..] == rest;
    } else {
      assert b[1..] == EncodeLength(n / 128) + rest;
      assert Limit(digits - 1) * 128 == Limit(digits);
      DigitsBack(n / 128, digits - 1, rest);
    }
  }

  /** What any bytes decode to: at most four of them go, and the value stays below 2^28. */
  lemma {:induction false} DigitsBound(b: Bytes, digits: nat)
    requires digits <= 4
    ensures var d := DecodeDigits(b, digits);
            d.Got? ==> d.value < Limit(digits) && |b| - digits <= |d.rest| <= |b| && d.rest == b[|b| - |d.rest|..]
                       && (digits > 0 ==> |d.rest| < |b|)
    decreases digits
  {
    if digits > 0 && b != [] && b[0] >= 128 {
      DigitsBound(b[1..], digits - 1);
      var d := DecodeDigits(b[1..], digits - 1);
      if d.Got? {
        assert b[1..][|b| - 1 - |d.rest|..] == b[|b| - |d.rest|..];
        assert Limit(digits) == 128 * Limit(digits - 1);
      }
    } else if digits > 0 && b != [] {
      assert Limit(digits) == 128 * Limit(digits - 1);
    }
  }

  const MAX_LENGTH := 268435456  // 2^28

  lemma LimitIs()
    ensures Limit(4) == MAX_LENGTH
  {
    assert Limit(0) == 1;
    assert Limit(1) == 128;
    assert Limit(2) == 16384;
    assert Limit(3) == 2097152;
  }

  /** The remaining length comes back if and only if it is below 2^28. */
  lemma LengthBackIff(n: nat, rest: Bytes)
    ensures DecodeLength(EncodeLength(n) + rest) == Got(n, rest) <==> n < MAX_LENGTH
    ensures n < MAX_LENGTH ==> |EncodeLength(n)| <= 4
  {
    LimitIs();
    if n < MAX_LENGTH {
      DigitsBack(n, 4, rest);
    }
    DigitsBound(EncodeLength(n) + rest, 4);
  }

  lemma LengthBound(b: Bytes)
    ensures var d := DecodeLength(b);
            d.Got? ==> d.value < MAX_LENGTH && 1 <= |b| - |d.rest| <= 4 && d.rest == b[|b| - |d.rest|..]
  {
    LimitIs();
    DigitsBound(b, 4);
  }

  /** The bytes taken by the decoder. */
  ghost function TakenBytes(b: Bytes, digits: nat): (t: Bytes)
    requires digits <= 4 && DecodeDigits(b, digits).Got?
  {
    DigitsBound(b, digits);
    b[..|b| - |DecodeDigits(b, digits).rest|]
  }

  /** The last byte ends the number, and is there for a reason. */
  predicate Minimal(t: Bytes) {
    t != [] && t[|t| - 1] < 128 && (|t| == 1 || t[|t| - 1] != 0)
  }

  lemma TakenMore(b: Bytes, digits: nat)
    requires 1 <= digits <= 4 && b != [] && b[0] >= 128 && DecodeDigits(b, digits).Got?
    ensures DecodeDigits(b[1..], digits - 1).Got?
    ensures TakenBytes(b, digits) == [b[0]] + TakenBytes(b[1..], digits - 1)
  {
    DigitsBound(b, digits);
    DigitsBound(b[1..], digits - 1);
    HeadApart(b, |b| - |DecodeDigits(b[1..], digits - 1).rest|);
  }

  lemma HeadApart(b: Bytes, m: nat)
    requires 1 <= m <= |b|
    ensures b[..m] == [b[0]] + b[1..][..m - 1]
  {
  }

  lemma EncodeMore(x: Byte, v: nat)
    requires x >= 128
    ensures var e := EncodeLength(x - 128 + 128 * v); if v == 0 then e == [x - 128] else e == [x] + EncodeLength(v)
  {
    DigitApart(x - 128, v);
  }

  lemma DigitApart(r: nat, v: nat)
    requires r < 128
    ensures (r + 128 * v) / 128 == v && (r + 128 * v) % 128 == r
  {
  }

  /** The first byte of a longer number: the rest decides. */
  lemma MinimalMore(x: Byte, t: Bytes, v: nat)
    requires x >= 128 && (t == EncodeLength(v) <==> Minimal(t)) && (|t| == 1 && t[0] < 128 ==> v == t[0])
    ensures [x] + t == EncodeLength(x - 128 + 128 * v) <==> Minimal([x] + t)
  {
    EncodeMore(x, v);
    var u := [x] + t;
    assert t != [] ==> u[|u| - 1] == t[|t| - 1];
    if v == 0 {
      assert EncodeLength(0) == [0];
      assert u[0] == x;
    } else {
      assert u == [x] + EncodeLength(v) <==> t == EncodeLength(v) by {
        assert u[1..] == t && ([x] + EncodeLength(v))[1..] == EncodeLength(v);
      }
    }
  }

  lemma OneDigit(b: Bytes, digits: nat)
    requires 1 <= digits <= 4 && b != [] && b[0] < 128
    ensures DecodeDigits(b, digits) == Got(b[0], b[1..]) && TakenBytes(b, digits) == [b[0]]
  {
    assert b[..1] == [b[0]];
  }

  lemma {:induction false} DigitsMinimal(b: Bytes, digits: nat)
    requires digits <= 4 && DecodeDigits(b, digits).Got?
    ensures TakenBytes(b, digits) == EncodeLength(DecodeDigits(b, digits).value) <==> Minimal(TakenBytes(b, digits))
    ensures var t := TakenBytes(b, digits); |t| == 1 && t[0] < 128 ==> DecodeDigits(b, digits).value == t[0]
    decreases digits
  {
    if digits == 0 {
      assert TakenBytes(b, 0) == [];
    } else if b[0] < 128 {
      OneDigit(b, digits);
    } else {
      TakenMore(b, digits);
      DigitsMinimal(b[1..], digits - 1);
      MinimalMore(b[0], TakenBytes(b[1..], digits - 1), DecodeDigits(b[1..], digits - 1).value);
    }
  }

  /** Exactly which byte strings the decoder takes are the ones the encoder writes for the
      length decoded: those whose last byte has its top bit clear and, after the first, is not
      zero. Any other is accepted as well. */
  lemma LengthMinimalIff(b: Bytes)
    requires DecodeLength(b).Got?
    ensures TakenBytes(b, 4) == EncodeLength(DecodeLength(b).value) <==> Minimal(TakenBytes(b, 4))
  {
    DigitsMinimal(b, 4);
  }

  /** Two of the others: four digits of which the last goes on, and a superfluous zero. */
  lemma OddLengthsAccepted()
    ensures DecodeLength([128, 128, 128, 128]) == Got(0, []) && DecodeLength([128, 0]) == Got(0, [])
    ensures EncodeLength(0) == [0]
  {
    var a, b, c, d: Bytes := [128, 128, 128, 128], [128, 128, 128], [128, 128], [128];
    assert a[1..] == b && b[1..] == c && c[1..] == d && d[1..] == [];
    assert DecodeDigits([], 0) == Got(0, []);
    assert DecodeDigits(d, 1) == Got(0, []);
    assert DecodeDigits(c, 2) == Got(0, []);
    assert DecodeDigits(b, 3) == Got(0, []);
    var e: Bytes := [128, 0];
    assert e[1..] == [0] && [0 as Byte][1..] == [];
    assert DecodeDigits(e[1..], 3) == Got(0, []);
  }

  // ---------- sequences of items ----------

  function WriteMany<T(!new)>(write: T -> Bytes, xs: seq<T>): Bytes {
    if xs == [] then [] else write(xs[0]) + WriteMany(write, xs[1..])
  }

  /** Reading a number of items one after the other. */
  function ReadMany<T(!new)>(read: Bytes -> Got<T>, s: Bytes, n: nat): Got<seq<T>>
    decreases n
  {
    if n == 0 then Got([], s)
    else
      match read(s)
      case Fail => Fail
      case Got(x, rest) =>
        match ReadMany(read, rest, n - 1)
        case Fail => Fail
        case Got(xs, rest1) => Got([x] + xs, rest1)
  }

  function Each<T(!new)>(f: T -> T, xs: seq<T>): seq<T> {
    if xs == [] then [] else [f(xs[0])] + Each(f, xs[1..])
  }

  /** What is read back item by item is read back in sequence, whatever follows. */
  lemma {:induction false} ManyBack<T(!new)>(write: T -> Bytes, read: Bytes -> Got<T>, back: T -> T, xs: seq<T>, rest: Bytes)
    requires forall i, r | 0 <= i < |xs| :: read(write(xs[i]) + r) == Got(back(xs[i]), r)
    ensures ReadMany(read, WriteMany(write, xs) + rest, |xs|) ==
            Got(Each(back, xs), rest)
  {
    if xs == [] {
      assert [] + rest == rest;
    } else {
      var more := WriteMany(write, xs[1..]) + rest;
      assert WriteMany(write, xs) + rest == write(xs[0]) + more;
      ManyBack(write, read, back, xs[1..], rest);
    }
  }
}
