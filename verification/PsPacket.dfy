/**
 The wire packet: an eight-byte header (request number, type, packet length) followed by attributes
 (type, data length, data), every integer in network byte order. `Build` and `Parse` are the two
 directions on values; `Init` and `AddAttr` fill a caller's buffer in place.
 */
module PsPacket {
  import opened Bytes

  const HEADER_SIZE := 8
  const ATTR_HEADER_SIZE := 4

  datatype Attr = Attr(kind: uint16, data: seq<byte>)
  datatype Parsed = Parsed(num: uint32, kind: uint16, len: uint16, attrs: seq<Attr>)

  function AttrBytes(a: Attr): seq<byte> {
    BigEndian(a.kind, 2) + BigEndian(|a.data|, 2) + a.data
  }

  function AttrsBytes(attrs: seq<Attr>): seq<byte> {
    if attrs == [] then [] else AttrBytes(attrs[0]) + AttrsBytes(attrs[1..])
  }

  function Header(num: uint32, kind: uint16, len: nat): (bs: seq<byte>)
    ensures |bs| == HEADER_SIZE
  {
    BigEndian(num, 4) + BigEndian(kind, 2) + BigEndian(len, 2)
  }

  function Build(num: uint32, kind: uint16, attrs: seq<Attr>): (bs: seq<byte>)
    ensures |bs| == HEADER_SIZE + |AttrsBytes(attrs)|
  {
    Header(num, kind, HEADER_SIZE + |AttrsBytes(attrs)|) + AttrsBytes(attrs)
  }

  /** Everything of the packet is countable by its 16-bit length field. */
  predicate Fits(attrs: seq<Attr>) {
    HEADER_SIZE + |AttrsBytes(attrs)| < 0x1_0000
  }

  function ParseAttrs(bs: seq<byte>): Option<seq<Attr>> {
    if bs == [] then Some([])
    else if |bs| < ATTR_HEADER_SIZE then None
    else
      var end := ATTR_HEADER_SIZE + FromBigEndian(bs[2..4]);
      if end > |bs| then None
      else
        match ParseAttrs(bs[end..])
        case None => None
        case Some(rest) =>
          Field16(bs, 0);
          Some([Attr(FromBigEndian(bs[0..2]), bs[4..end])] + rest)
  }

  /** An attribute byte by byte: two of its type, two of its length, its data. */
  lemma AttrLayout(a: Attr)
    requires |a.data| < 0x1_0000
    ensures AttrBytes(a) == [a.kind / 0x100, a.kind % 0x100, |a.data| / 0x100, |a.data| % 0x100] + a.data
  {
    NetworkBytes(a.kind);
    NetworkBytes(|a.data|);
    hide BigEndian;
  }

  /** A packet byte by byte: four of its number, two of its type, two of its length, its attributes. */
  lemma PacketLayout(num: uint32, kind: uint16, attrs: seq<Attr>)
    requires Fits(attrs)
    ensures var len := 8 + |AttrsBytes(attrs)|;
            Build(num, kind, attrs)
            == [num / 0x1_0000 / 0x100, num / 0x1_0000 % 0x100, num / 0x100 % 0x100, num % 0x100,
                kind / 0x100, kind % 0x100, len / 0x100, len % 0x100] + AttrsBytes(attrs)
  {
    HeaderLayout(num, kind, 8 + |AttrsBytes(attrs)|);
    hide Header, AttrsBytes;
  }

  lemma HeaderLayout(num: uint32, kind: uint16, len: uint16)
    ensures Header(num, kind, len)
         == [num / 0x1_0000 / 0x100, num / 0x1_0000 % 0x100, num / 0x100 % 0x100, num % 0x100,
             kind / 0x100, kind % 0x100, len / 0x100, len % 0x100]
  {
    hide *;
    NetworkBytes(num);
    TwoBytesOf(num / 0x1_0000);
    TwoBytesOf(kind);
    TwoBytesOf(len);
    HeaderIs(num, kind, len);
    Joined(num / 0x1_0000 / 0x100, num / 0x1_0000 % 0x100, num / 0x100 % 0x100, num % 0x100,
           kind / 0x100, kind % 0x100, len / 0x100, len % 0x100);
  }

  lemma HeaderIs(num: uint32, kind: uint16, len: nat)
    ensures Header(num, kind, len) == BigEndian(num, 4) + BigEndian(kind, 2) + BigEndian(len, 2)
  {
  }

  lemma TwoBytesOf(v: uint16)
    ensures BigEndian(v, 2) == [v / 0x100, v % 0x100]
  {
    NetworkBytes(v);
    hide BigEndian;
  }

  lemma Joined(a: byte, b: byte, c: byte, d: byte, e: byte, f: byte, g: byte, h: byte)
    ensures [a, b] + [c, d] + [e, f] + [g, h] == [a, b, c, d, e, f, g, h]
  {
  }

  lemma {:induction false} AttrsLayout(attrs: seq<Attr>)
    ensures AttrsBytes([]) == []
    ensures attrs != [] ==> AttrsBytes(attrs) == AttrBytes(attrs[0]) + AttrsBytes(attrs[1..])
  {
  }

  /** The packet at the front of `bs`, if there is a well-formed one. */
  function Parse(bs: seq<byte>): (r: Option<Parsed>)
    ensures r.Some? ==> HEADER_SIZE <= r.value.len <= |bs|
  {
    if |bs| < HEADER_SIZE then None
    else
      var len := FromBigEndian(bs[6..8]);
      if len < HEADER_SIZE || len > |bs| then None
      else
        match ParseAttrs(bs[HEADER_SIZE..len])
        case None => None
        case Some(attrs) =>
          Field16(bs, 4);
          Field16(bs, 6);
          Field32(bs);
          Some(Parsed(FromBigEndian(bs[0..4]), FromBigEndian(bs[4..6]), len, attrs))
  }

  lemma Field16(bs: seq<byte>, at: nat)
    requires at + 2 <= |bs|
    ensures FromBigEndian(bs[at..at + 2]) < 0x1_0000
  {
    Widths();
    FromBigEndianRoundTrip(bs[at..at + 2]);
  }

  lemma Field32(bs: seq<byte>)
    requires 4 <= |bs|
    ensures FromBigEndian(bs[0..4]) < 0x1_0000_0000
  {
    Widths();
    FromBigEndianRoundTrip(bs[0..4]);
  }

  lemma {:induction false} ParseAttrsBytes(attrs: seq<Attr>)
    requires |AttrsBytes(attrs)| < 0x1_0000
    ensures ParseAttrs(AttrsBytes(attrs)) == Some(attrs)
  {
    if attrs != [] {
      var a, bs := attrs[0], AttrsBytes(attrs);
      ParseAttrsBytes(attrs[1..]);
      Widths();
      BigEndianRoundTrip(a.kind, 2);
      BigEndianRoundTrip(|a.data|, 2);
      assert bs[0..2] == BigEndian(a.kind, 2);
      assert bs[2..4] == BigEndian(|a.data|, 2);
      assert bs[4..4 + |a.data|] == a.data;
      assert bs[4 + |a.data|..] == AttrsBytes(attrs[1..]);
      assert attrs == [a] + attrs[1..];
    }
  }

  lemma {:induction false} AttrsBytesParse(bs: seq<byte>)
    requires ParseAttrs(bs).Some?
    ensures AttrsBytes(ParseAttrs(bs).value) == bs
  {
    if bs != [] {
      var end := ATTR_HEADER_SIZE + FromBigEndian(bs[2..4]);
      AttrsBytesParse(bs[end..]);
      FromBigEndianRoundTrip(bs[0..2]);
      FromBigEndianRoundTrip(bs[2..4]);
      var attrs := ParseAttrs(bs).value;
      assert attrs[1..] == ParseAttrs(bs[end..]).value;
      assert AttrBytes(attrs[0]) == bs[0..2] + bs[2..4] + bs[4..end] == bs[..end];
    }
  }

  predicate SmallData(attrs: seq<Attr>) {
    forall i :: 0 <= i < |attrs| ==> |attrs[i].data| < 0x1_0000
  }

  lemma {:induction false} ParsedDataSmall(bs: seq<byte>)
    requires ParseAttrs(bs).Some?
    ensures SmallData(ParseAttrs(bs).value)
  {
    if bs != [] {
      var end := ATTR_HEADER_SIZE + FromBigEndian(bs[2..4]);
      Field16(bs, 2);
      ParsedDataSmall(bs[end..]);
    }
  }

  /** A built packet is read back whole, whatever bytes follow it. */
  lemma ParseBuild(num: uint32, kind: uint16, attrs: seq<Attr>, rest: seq<byte>)
    requires Fits(attrs)
    ensures Parse(Build(num, kind, attrs) + rest)
         == Some(Parsed(num, kind, |Build(num, kind, attrs)|, attrs))
  {
    var body := AttrsBytes(attrs);
    var len := HEADER_SIZE + |body|;
    var bs := Build(num, kind, attrs) + rest;
    Widths();
    BigEndianRoundTrip(num, 4);
    BigEndianRoundTrip(kind, 2);
    BigEndianRoundTrip(len, 2);
    assert bs[0..4] == BigEndian(num, 4);
    assert bs[4..6] == BigEndian(kind, 2);
    assert bs[6..8] == BigEndian(len, 2);
    assert bs[HEADER_SIZE..len] == body;
    ParseAttrsBytes(attrs);
  }

  /** Conversely, whatever parses is the build of what it parses to. */
  lemma BuildParse(bs: seq<byte>)
    requires Parse(bs).Some?
    ensures var p := Parse(bs).value;
            Fits(p.attrs) && Build(p.num, p.kind, p.attrs) == bs[..p.len]
  {
    var p := Parse(bs).value;
    AttrsBytesParse(bs[HEADER_SIZE..p.len]);
    FromBigEndianRoundTrip(bs[0..4]);
    FromBigEndianRoundTrip(bs[4..6]);
    FromBigEndianRoundTrip(bs[6..8]);
    assert Header(p.num, p.kind, p.len) == bs[0..4] + bs[4..6] + bs[6..8] == bs[..8];
    assert bs[..p.len] == bs[..8] + bs[8..p.len];
  }

  /** Parsing looks at no byte behind the packet. */
  lemma ParseLocal(bs: seq<byte>, rest: seq<byte>)
    requires Parse(bs).Some?
    ensures Parse(bs[..Parse(bs).value.len] + rest) == Parse(bs)
  {
    var p := Parse(bs).value;
    BuildParse(bs);
    ParseBuild(p.num, p.kind, p.attrs, rest);
  }

  lemma {:induction false} AttrsBytesAppend(attrs: seq<Attr>, a: Attr)
    ensures AttrsBytes(attrs + [a]) == AttrsBytes(attrs) + AttrBytes(a)
  {
    if attrs == [] {
      assert AttrsBytes([a]) == AttrBytes(a) + AttrsBytes([]);
    } else {
      AttrsBytesAppend(attrs[1..], a);
      assert (attrs + [a])[1..] == attrs[1..] + [a];
    }
  }

  // ---- filling a buffer in place ----

  /** The buffer starts with the packet `Build(num, kind, attrs)`. */
  ghost predicate Contains(buffer: array<byte>, num: uint32, kind: uint16, attrs: seq<Attr>)
    reads buffer
  {
    && Fits(attrs)
    && |Build(num, kind, attrs)| <= buffer.Length
    && buffer[..|Build(num, kind, attrs)|] == Build(num, kind, attrs)
  }

  method Store(buffer: array<byte>, at: nat, data: seq<byte>)
    requires at + |data| <= buffer.Length
    modifies buffer
    ensures buffer[..] == old(buffer[..at]) + data + old(buffer[at + |data|..])
  {
    forall i | 0 <= i < |data| {
      buffer[at + i] := data[i];
    }
  }

  method Init(buffer: array<byte>, num: uint32, kind: uint16) returns (res: int)
    modifies buffer
    ensures res == 0 <==> buffer.Length >= HEADER_SIZE
    ensures res == 0 ==> Contains(buffer, num, kind, [])
    ensures res != 0 ==> buffer[..] == old(buffer[..])
  {
    if buffer.Length < HEADER_SIZE {
      return -1;
    }
    Store(buffer, 0, Header(num, kind, HEADER_SIZE));
    assert buffer[..HEADER_SIZE] == buffer[..][..HEADER_SIZE] == Build(num, kind, []);
    return 0;
  }

  predicate HasRoom(attrs: seq<Attr>, a: Attr, capacity: nat) {
    Fits(attrs + [a]) && HEADER_SIZE + |AttrsBytes(attrs + [a])| <= capacity
  }

  /** The bytes a buffer holds once an attribute and the new length have been written over `c`. */
  function Extended(c: seq<byte>, used: nat, bytes: seq<byte>): seq<byte>
    requires HEADER_SIZE <= used && used + |bytes| <= |c|
  {
    var appended := c[..used] + bytes + c[used + |bytes|..];
    appended[..6] + BigEndian(used + |bytes|, 2) + appended[8..]
  }

  lemma ExtendedHolds(c: seq<byte>, num: uint32, kind: uint16, attrs: seq<Attr>, a: Attr)
    requires HasRoom(attrs, a, |c|)
    requires |Build(num, kind, attrs)| <= |c| && c[..|Build(num, kind, attrs)|] == Build(num, kind, attrs)
    ensures var packet := Build(num, kind, attrs + [a]);
            && |packet| == |Build(num, kind, attrs)| + |AttrBytes(a)| <= |c|
            && Extended(c, |Build(num, kind, attrs)|, AttrBytes(a))[..|packet|] == packet
  {
    var old', packet := Build(num, kind, attrs), Build(num, kind, attrs + [a]);
    AttrsBytesAppend(attrs, a);
    hide BigEndian, AttrsBytes, AttrBytes;
    var appended := c[..|old'|] + AttrBytes(a) + c[|packet|..];
    assert old'[..6] == BigEndian(num, 4) + BigEndian(kind, 2) == packet[..6];
    assert old'[8..] == AttrsBytes(attrs);
    assert appended[..6] == c[..|old'|][..6] == packet[..6];
    assert appended[8..|packet|] == c[..|old'|][8..] + AttrBytes(a) == packet[8..];
    assert packet == packet[..6] + BigEndian(|packet|, 2) + packet[8..];
  }

  lemma LengthField(c: seq<byte>, num: uint32, kind: uint16, attrs: seq<Attr>)
    requires Fits(attrs)
    requires |Build(num, kind, attrs)| <= |c| && c[..|Build(num, kind, attrs)|] == Build(num, kind, attrs)
    ensures FromBigEndian(c[6..8]) == |Build(num, kind, attrs)|
  {
    var packet := Build(num, kind, attrs);
    assert c[6..8] == packet[6..8] == BigEndian(|packet|, 2);
    Widths();
    BigEndianRoundTrip(|packet|, 2);
  }

  /** Appends an attribute; the result is the new packet length, or 0 when there is no room. */
  method AddAttr(buffer: array<byte>, kind: uint16, data: seq<byte>,
                 ghost num: uint32, ghost packetKind: uint16, ghost attrs: seq<Attr>)
    returns (len: nat)
    requires Contains(buffer, num, packetKind, attrs)
    modifies buffer
    ensures len > 0 <==> HasRoom(attrs, Attr(kind, data), buffer.Length)
    ensures len > 0 ==>
              && Contains(buffer, num, packetKind, attrs + [Attr(kind, data)])
              && len == |Build(num, packetKind, attrs + [Attr(kind, data)])|
    ensures len == 0 ==> buffer[..] == old(buffer[..])
  {
    var a := Attr(kind, data);
    ghost var c := buffer[..];
    ghost var packet := Build(num, packetKind, attrs);
    assert c[..|packet|] == packet;
    LengthField(c, num, packetKind, attrs);
    AttrsBytesAppend(attrs, a);
    assert buffer[6..8] == c[6..8];
    var used := FromBigEndian(buffer[6..8]);
    var bytes := AttrBytes(a);
    len := used + |bytes|;
    if len > buffer.Length || len >= 0x1_0000 {
      return 0;
    }
    ExtendedHolds(c, num, packetKind, attrs, a);
    Store(buffer, used, bytes);
    Store(buffer, 6, BigEndian(len, 2));
    assert buffer[..] == Extended(c, used, bytes);
    assert buffer[..len] == buffer[..][..len];
  }
}
