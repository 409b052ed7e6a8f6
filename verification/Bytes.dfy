/** Octets, fixed-width integers and network byte order. */
module Bytes {

  type byte = x: int | 0 <= x < 256
  type uint16 = x: int | 0 <= x < 0x1_0000
  type uint32 = x: int | 0 <= x < 0x1_0000_0000
  type uint64 = x: int | 0 <= x < 0x1_0000_0000_0000_0000
  type int8 = x: int | -0x80 <= x < 0x80
  type int16 = x: int | -0x8000 <= x < 0x8000
  type int32 = x: int | -0x8000_0000 <= x < 0x8000_0000
  type int64 = x: int | -0x8000_0000_0000_0000 <= x < 0x8000_0000_0000_0000

  datatype Option<+T> = None | Some(value: T)
  datatype Result<+T, +E> = Success(value: T) | Failure(error: E)

  /** The number of values an `n`-byte integer has. */
  function Pow256(n: nat): (p: nat)
    ensures p >= 1
  {
    if n == 0 then 1 else 256 * Pow256(n - 1)
  }

  lemma Widths()
    ensures Pow256(1) == 0x100
    ensures Pow256(2) == 0x1_0000
    ensures Pow256(4) == 0x1_0000_0000
    ensures Pow256(8) == 0x1_0000_0000_0000_0000
  {
    assert Pow256(3) == 256 * Pow256(2);
    assert Pow256(4) == 256 * Pow256(3);
    assert Pow256(5) == 256 * Pow256(4);
    assert Pow256(6) == 256 * Pow256(5);
    assert Pow256(7) == 256 * Pow256(6);
  }

  /** The low `n` bytes of `v`, most significant first. */
  function BigEndian(v: nat, n: nat): (bs: seq<byte>)
    ensures |bs| == n
  {
    if n == 0 then [] else BigEndian(v / 256, n - 1) + [v % 256]
  }

  function FromBigEndian(bs: seq<byte>): (v: nat)
  {
    if bs == [] then 0 else 256 * FromBigEndian(bs[..|bs| - 1]) + bs[|bs| - 1]
  }

  lemma {:induction false} BigEndianRoundTrip(v: nat, n: nat)
    requires v < Pow256(n)
    ensures FromBigEndian(BigEndian(v, n)) == v
  {
    if n > 0 {
      BigEndianRoundTrip(v / 256, n - 1);
      assert BigEndian(v, n)[..n - 1] == BigEndian(v / 256, n - 1);
    }
  }

  lemma {:induction false} FromBigEndianRoundTrip(bs: seq<byte>)
    ensures FromBigEndian(bs) < Pow256(|bs|)
    ensures BigEndian(FromBigEndian(bs), |bs|) == bs
  {
    if bs != [] {
      FromBigEndianRoundTrip(bs[..|bs| - 1]);
      assert bs == bs[..|bs| - 1] + [bs[|bs| - 1]];
    }
  }

  /** Network byte order, byte by byte: the first byte counts most. */
  lemma NetworkOrder(bs: seq<byte>)
    ensures |bs| == 1 ==> FromBigEndian(bs) == bs[0]
    ensures |bs| == 2 ==> FromBigEndian(bs) == 0x100 * (bs[0] as int) + bs[1]
    ensures |bs| == 4 ==>
              FromBigEndian(bs)
              == 0x100_0000 * (bs[0] as int) + 0x1_0000 * (bs[1] as int) + 0x100 * (bs[2] as int) + bs[3]
    ensures |bs| == 8 ==> FromBigEndian(bs) == 0x1_0000_0000 * FromBigEndian(bs[..4]) + FromBigEndian(bs[4..])
  {
    if |bs| == 8 {
      BigEndianHalves(bs[..4], bs[4..]);
      Widths();
      assert bs == bs[..4] + bs[4..];
    } else if |bs| == 4 {
      BigEndianHalves(bs[..2], bs[2..]);
      Widths();
      TwoBytes(bs[..2]);
      TwoBytes(bs[2..]);
      assert bs == bs[..2] + bs[2..];
    } else if |bs| == 2 {
      TwoBytes(bs);
    } else if |bs| == 1 {
      assert bs[..0] == [];
    }
  }

  lemma TwoBytes(bs: seq<byte>)
    requires |bs| == 2
    ensures FromBigEndian(bs) == 0x100 * (bs[0] as int) + bs[1]
  {
    assert bs[..1] == [bs[0]] && [bs[0]][..0] == [];
    assert FromBigEndian([bs[0]]) == bs[0];
  }

  lemma LastByte(bs: seq<byte>, b: byte)
    ensures FromBigEndian(bs + [b]) == 256 * FromBigEndian(bs) + b
  {
    assert (bs + [b])[..|bs|] == bs;
  }

  lemma {:induction false} BigEndianHalves(a: seq<byte>, b: seq<byte>)
    ensures FromBigEndian(a + b) == Pow256(|b|) * FromBigEndian(a) + FromBigEndian(b)
  {
    if b == [] {
      assert a + b == a;
    } else {
      var front, last := b[..|b| - 1], b[|b| - 1];
      BigEndianHalves(a, front);
      LastByte(a + front, last);
      LastByte(front, last);
      assert a + b == a + front + [last] && b == front + [last];
      assert Pow256(|b|) == 256 * Pow256(|front|);
      Distributes(Pow256(|front|), FromBigEndian(a), FromBigEndian(front), last);
    }
  }

  lemma Distributes(p: nat, a: nat, b: nat, last: nat)
    ensures 256 * (p * a + b) + last == 256 * p * a + (256 * b + last)
  {
  }

  /** And the other way. */
  lemma NetworkBytes(v: nat)
    ensures BigEndian(v, 1) == [v % 0x100]
    ensures BigEndian(v, 2) == [v / 0x100 % 0x100, v % 0x100]
    ensures BigEndian(v, 4) == BigEndian(v / 0x1_0000, 2) + BigEndian(v, 2)
  {
    hide *;
    BigEndian1(v);
    BigEndian2(v);
    HighBytes(v, v / 0x100, v / 0x1_0000);
  }

  lemma HighBytes(v: nat, v1: nat, v2: nat)
    requires v1 == v / 0x100 && v2 == v / 0x1_0000
    ensures BigEndian(v, 4) == BigEndian(v2, 2) + BigEndian(v, 2)
  {
    assert v1 / 0x100 == v2;
    hide *;
    LowByte(v, 3);
    LowByte(v1, 2);
    LowByte(v, 1);
    LowByte(v1, 0);
    assert BigEndian(v2, 2) + [v1 % 0x100] + [v % 0x100] == BigEndian(v2, 2) + ([] + [v1 % 0x100] + [v % 0x100]);
  }

  lemma BigEndian1(v: nat)
    ensures BigEndian(v, 1) == [v % 0x100]
  {
    LowByte(v, 0);
    LowByte(v / 0x100, 0);
  }

  lemma BigEndian2(v: nat)
    ensures BigEndian(v, 2) == [v / 0x100 % 0x100, v % 0x100]
  {
    hide *;
    LowByte(v, 1);
    BigEndian1(v / 0x100);
  }

  lemma LowByte(v: nat, n: nat)
    ensures BigEndian(v, n + 1) == BigEndian(v / 0x100, n) + [v % 0x100]
    ensures BigEndian(v, 0) == []
  {
  }

  /** The C++ integer types the server decodes attributes into. */
  datatype CInt = UInt8 | UInt16 | UInt64 | Int16 | Int64

  predicate InRange(v: int, t: CInt)
  {
    match t
    case UInt8 => 0 <= v < 0x100
    case UInt16 => 0 <= v < 0x1_0000
    case UInt64 => 0 <= v < 0x1_0000_0000_0000_0000
    case Int16 => -0x8000 <= v < 0x8000
    case Int64 => -0x8000_0000_0000_0000 <= v < 0x8000_0000_0000_0000
  }

  function ToInt16(v: int): (r: int16)
    ensures -0x8000 <= v < 0x8000 ==> r == v
  {
    var u := v % 0x1_0000;
    if u >= 0x8000 then u - 0x1_0000 else u
  }

  function ToInt8(v: int): (r: int8)
    ensures -0x80 <= v < 0x80 ==> r == v
  {
    var u := v % 0x100;
    if u >= 0x80 then u - 0x100 else u
  }

  function ToInt32(v: int): (r: int32)
    ensures -0x8000_0000 <= v < 0x8000_0000 ==> r == v
  {
    var u := v % 0x1_0000_0000;
    if u >= 0x8000_0000 then u - 0x1_0000_0000 else u
  }

  function ToInt64(v: int): (r: int64)
    ensures -0x8000_0000_0000_0000 <= v < 0x8000_0000_0000_0000 ==> r == v
  {
    var u := v % 0x1_0000_0000_0000_0000;
    if u >= 0x8000_0000_0000_0000 then u - 0x1_0000_0000_0000_0000 else u
  }

  /** Assignment to a C++ integer: the value of the type congruent to `v`. */
  function Convert(v: int, t: CInt): (r: int)
    ensures InRange(r, t)
    ensures InRange(v, t) ==> r == v
  {
    match t
    case UInt8 => v % 0x100
    case UInt16 => v % 0x1_0000
    case UInt64 => v % 0x1_0000_0000_0000_0000
    case Int16 => ToInt16(v)
    case Int64 => ToInt64(v)
  }
}

/** The little text the server composes: decimal numbers and error messages. */
module Text {
  import opened Bytes

  const DIGITS: string := "0123456789"

  /** std::to_string of an unsigned number. */
  function Decimal(n: nat): (s: string)
    ensures |s| > 0 && s[|s| - 1] in DIGITS
  {
    if n < 10 then [DIGITS[n]] else Decimal(n / 10) + [DIGITS[n % 10]]
  }

  function Pow10(k: nat): nat { if k == 0 then 1 else 10 * Pow10(k - 1) }

  lemma {:induction false} DecimalLength(n: nat, k: nat)
    requires k > 0 && n < Pow10(k)
    ensures |Decimal(n)| <= k
  {
    if n >= 10 {
      DecimalLength(n / 10, k - 1);
    }
  }

  /** Five digits are enough for a 16-bit number. */
  lemma Decimal16(n: uint16)
    ensures |Decimal(n)| <= 5
  {
    assert Pow10(5) == 10 * Pow10(4) == 100 * Pow10(3) == 1000 * Pow10(2);
    DecimalLength(n, 5);
  }

  predicate Printable(s: string) { forall i :: 0 <= i < |s| ==> ' ' <= s[i] <= '~' }

  lemma {:induction false} DecimalPrintable(n: nat)
    ensures Printable(Decimal(n))
  {
    assert forall d :: 0 <= d < 10 ==> '0' <= DIGITS[d] <= '9';
    if n >= 10 {
      DecimalPrintable(n / 10);
    }
  }

  lemma PrintableParts(a: string, b: string)
    requires Printable(a) && Printable(b)
    ensures Printable(a + b)
  {
  }

  /** The octets of a text. */
  function Octets(s: string): (bs: seq<byte>)
    ensures |bs| == |s|
  {
    seq(|s|, i requires 0 <= i < |s| => s[i] as int % 256)
  }
}
