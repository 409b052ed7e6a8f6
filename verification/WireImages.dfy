/** What the server sends, byte by byte. */
module WireImages {
  import opened Bytes
  import opened Text
  import opened PsPacket
  import opened ClientRequests
  import opened Requests

  /** Number, type and length of a packet of fewer than 256 bytes. */
  function Head(num: uint32, kind: seq<byte>, len: byte): seq<byte> {
    [num / 0x1_0000 / 0x100, num / 0x1_0000 % 0x100, num / 0x100 % 0x100, num % 0x100] + kind + [0, len]
  }

  /** One signed byte, and the same number in four. */
  function OneByte(v: int8): seq<byte> { [if v >= 0 then v else 256 + v] }

  function FourBytes(v: int8): seq<byte> {
    if v >= 0 then [0, 0, 0, v] else [0xFF, 0xFF, 0xFF, 256 + v]
  }

  lemma HeadOf(num: uint32, kind: uint16, attrs: seq<Attr>)
    requires 8 + |AttrsBytes(attrs)| < 256
    ensures Build(num, kind, attrs)
         == Head(num, [kind / 0x100, kind % 0x100], 8 + |AttrsBytes(attrs)|) + AttrsBytes(attrs)
  {
    PacketLayout(num, kind, attrs);
    hide Build, AttrsBytes;
  }

  lemma OneAttr(a: Attr)
    ensures AttrsBytes([a]) == AttrBytes(a)
  {
    assert [a][1..] == [];
    assert AttrBytes(a) + [] == AttrBytes(a);
    AttrsLayout([a]);
    AttrsLayout([]);
    hide AttrsBytes, AttrBytes;
  }

  lemma TwoAttrs(a: Attr, b: Attr)
    ensures AttrsBytes([a, b]) == AttrBytes(a) + AttrBytes(b)
  {
    assert [a, b][1..] == [b];
    OneAttr(b);
    AttrsLayout([a, b]);
    hide AttrsBytes, AttrBytes;
  }

  lemma ThreeAttrs(a: Attr, b: Attr, c: Attr)
    ensures AttrsBytes([a, b, c]) == AttrBytes(a) + AttrBytes(b) + AttrBytes(c)
  {
    assert [a, b, c][1..] == [b, c];
    TwoAttrs(b, c);
    AttrsLayout([a, b, c]);
    hide AttrsBytes, AttrBytes;
    assert AttrBytes(a) + (AttrBytes(b) + AttrBytes(c)) == AttrBytes(a) + AttrBytes(b) + AttrBytes(c);
  }

  lemma Signed32(v: int8)
    ensures Int32Bytes(v) == FourBytes(v)
  {
    var u := if v >= 0 then v else 0x1_0000_0000 + v;
    var high := if v >= 0 then 0 else 0xFFFF;
    assert u == v % 0x1_0000_0000 && u / 0x1_0000 == high;
    NetworkBytes(u);
    NetworkBytes(high);
    hide BigEndian;
    assert u / 0x100 % 0x100 == high % 0x100 && u % 0x100 == if v >= 0 then v else 256 + v;
  }

  /** An attribute of fewer than 256 bytes. */
  lemma SmallAttr(a: Attr)
    requires |a.data| < 256
    ensures AttrBytes(a) == [a.kind / 0x100, a.kind % 0x100, 0, |a.data|] + a.data
  {
    AttrLayout(a);
    hide AttrBytes;
  }

  /** An SMS response: the type 0x1101 and the attribute 0 with the result in four bytes. */
  lemma SmsResponseImage(q: Request)
    requires q.params.Sms? && q.resultDescr == ""
    ensures ResponseBytes(q) == Head(q.num, [0x11, 0x01], 16) + [0, 0, 0, 4] + FourBytes(q.resultCode)
  {
    var a := Attr(0, FourBytes(q.resultCode));
    Signed32(q.resultCode);
    OneAttr(a);
    SmallAttr(a);
    HeadOf(q.num, 0x1101, [a]);
    hide Build, AttrsBytes, AttrBytes, Head, FourBytes, Int32Bytes;
    assert ResponseAttrs(q) == [a];
  }

  /**
   A quota response: the type 0x1201, the attribute 0 with the code in one byte, and for code 0 the
   attribute 2 with the quota result in one byte and the attribute 3 with a positive number of chunks in four.
   */
  lemma QuotaResponseImage(q: Request)
    requires q.params.Camel? && q.resultDescr == ""
    ensures q.resultCode != 0 ==>
              ResponseBytes(q) == Head(q.num, [0x12, 0x01], 13) + ([0, 0, 0, 1] + OneByte(q.resultCode))
    ensures q.resultCode == 0 && q.out.quotaChunks <= 0 ==>
              ResponseBytes(q)
              == Head(q.num, [0x12, 0x01], 18) + ([0, 0, 0, 1, 0] + ([0, 2, 0, 1] + OneByte(q.out.quotaResult)))
    ensures q.resultCode == 0 && q.out.quotaChunks > 0 ==>
              ResponseBytes(q)
              == Head(q.num, [0x12, 0x01], 26)
                 + ([0, 0, 0, 1, 0] + ([0, 2, 0, 1] + OneByte(q.out.quotaResult))
                    + ([0, 3, 0, 4] + BigEndian(q.out.quotaChunks % 0x1_0000_0000, 4)))
  {
    if q.resultCode != 0 {
      FailureImage(q);
    } else if q.out.quotaChunks <= 0 {
      QuotaImage(q);
    } else {
      ChunksImage(q);
    }
    hide ResponseBytes, Head, OneByte, BigEndian;
  }

  lemma FailureImage(q: Request)
    requires q.params.Camel? && q.resultDescr == "" && q.resultCode != 0
    ensures ResponseBytes(q) == Head(q.num, [0x12, 0x01], 13) + ([0, 0, 0, 1] + OneByte(q.resultCode))
  {
    var a := Attr(0, OneByte(q.resultCode));
    SmallAttr(a);
    OneAttr(a);
    HeadOf(q.num, 0x1201, [a]);
    hide Build, AttrsBytes, AttrBytes, Head;
    assert ResponseAttrs(q) == [a];
  }

  lemma QuotaImage(q: Request)
    requires q.params.Camel? && q.resultDescr == "" && q.resultCode == 0 && q.out.quotaChunks <= 0
    ensures ResponseBytes(q)
         == Head(q.num, [0x12, 0x01], 18) + ([0, 0, 0, 1, 0] + ([0, 2, 0, 1] + OneByte(q.out.quotaResult)))
  {
    var a, b := Attr(0, [0]), Attr(2, OneByte(q.out.quotaResult));
    assert ResponseAttrs(q) == [a, b];
    TwoImage(q.num, 0x1201, a, b);
    hide Build, Head, OneByte, ResponseAttrs;
    assert [0, 0, 0, 1] + [0] == [0, 0, 0, 1, 0];
  }

  lemma ChunksImage(q: Request)
    requires q.params.Camel? && q.resultDescr == "" && q.resultCode == 0 && q.out.quotaChunks > 0
    ensures ResponseBytes(q)
         == Head(q.num, [0x12, 0x01], 26)
            + ([0, 0, 0, 1, 0] + ([0, 2, 0, 1] + OneByte(q.out.quotaResult))
               + ([0, 3, 0, 4] + BigEndian(q.out.quotaChunks % 0x1_0000_0000, 4)))
  {
    var chunks := BigEndian(q.out.quotaChunks % 0x1_0000_0000, 4);
    var b, c := Attr(2, OneByte(q.out.quotaResult)), Attr(3, chunks);
    assert ResponseAttrs(q) == [Attr(0, [0]), b, c];
    ThreeImage(q.num, 0x1201, [0], b.data, chunks);
    hide Build, Head, ResponseAttrs, BigEndian, OneByte;
    assert [0, 0, 0, 1] + [0] == [0, 0, 0, 1, 0];
  }

  /** A packet of the attributes 0, 2 and 3. */
  lemma ThreeImage(num: uint32, kind: uint16, a: seq<byte>, b: seq<byte>, c: seq<byte>)
    requires |a| == 1 && |b| == 1 && |c| == 4
    ensures Build(num, kind, [Attr(0, a), Attr(2, b), Attr(3, c)])
         == Head(num, [kind / 0x100, kind % 0x100], 26)
            + ([0, 0, 0, 1] + a + ([0, 2, 0, 1] + b) + ([0, 3, 0, 4] + c))
  {
    hide *;
    SmallAttr(Attr(0, a));
    SmallAttr(Attr(2, b));
    SmallAttr(Attr(3, c));
    ThreeAttrs(Attr(0, a), Attr(2, b), Attr(3, c));
    HeadOf(num, kind, [Attr(0, a), Attr(2, b), Attr(3, c)]);
  }

  /** A packet of two attributes. */
  lemma TwoImage(num: uint32, kind: uint16, a: Attr, b: Attr)
    requires 16 + |a.data| + |b.data| < 256
    ensures Build(num, kind, [a, b])
         == Head(num, [kind / 0x100, kind % 0x100], 16 + |a.data| + |b.data|)
            + ([a.kind / 0x100, a.kind % 0x100, 0, |a.data|] + a.data
               + ([b.kind / 0x100, b.kind % 0x100, 0, |b.data|] + b.data))
  {
    hide *;
    SmallAttr(a);
    SmallAttr(b);
    TwoAttrs(a, b);
    HeadOf(num, kind, [a, b]);
  }

  /** An acknowledgement and an alive reply are headers alone. */
  lemma BareImages(q: Request, num: uint32)
    ensures q.params.Finish? ==> ResponseBytes(q) == Head(q.num, [0x12, 0x03], 8)
    ensures AliveBytes(num) == Head(num, [0x00, 0x05], 8)
  {
    AttrsLayout([]);
    HeadOf(num, 0x0005, []);
    HeadOf(q.num, 0x1203, []);
    hide Build, AttrsBytes, Head;
  }

  /** A rejection: the type 0x1101, the attribute 0 with -11 in four bytes, and the attribute 1 with the text. */
  lemma RejectionImage(num: uint32, descr: string)
    requires |descr| <= 200
    ensures RejectionBytes(num, descr)
         == Head(num, [0x11, 0x01], 20 + |descr|)
            + ([0, 0, 0, 4, 0xFF, 0xFF, 0xFF, 0xF5] + ([0, 1, 0, |descr|] + Octets(descr)))
  {
    var a, b := Attr(0, [0xFF, 0xFF, 0xFF, 0xF5]), Attr(1, Octets(descr));
    RejectionBuilt(num, descr);
    TwoImage(num, 0x1101, a, b);
    hide Build, Head, Octets, RejectionBytes;
    assert [0, 0, 0, 4] + [0xFF, 0xFF, 0xFF, 0xF5] == [0, 0, 0, 4, 0xFF, 0xFF, 0xFF, 0xF5];
    assert [0, 0, 0, 4] + a.data + ([0, 1, 0, |descr|] + b.data)
        == [0, 0, 0, 4, 0xFF, 0xFF, 0xFF, 0xF5] + ([0, 1, 0, |descr|] + Octets(descr));
  }

  lemma RejectionBuilt(num: uint32, descr: string)
    ensures RejectionBytes(num, descr)
         == Build(num, 0x1101, [Attr(0, [0xFF, 0xFF, 0xFF, 0xF5]), Attr(1, Octets(descr))])
  {
    Signed32(-11);
    hide Build, Octets, Int32Bytes;
  }

  /** A text goes out character by character. */
  lemma OctetsAre(s: string)
    requires Printable(s)
    ensures |Octets(s)| == |s| && forall i :: 0 <= i < |s| ==> Octets(s)[i] == s[i] as int
  {
  }
}
