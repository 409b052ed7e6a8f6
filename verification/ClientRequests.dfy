/** What the three request classes share: attribute lookup and the parameter decoders (ClientRequest.h, .cpp). */
module ClientRequests {
  import opened Bytes
  import opened Text
  import opened PsPacket

  /** What `find` answers on one packet's attribute multimap: for each type present, one attribute's data. */
  type AttrMap = map<uint16, seq<byte>>

  /** `find` may answer with any attribute of the type it is asked for. */
  predicate IsView(attrs: seq<Attr>, m: AttrMap) {
    && (forall a :: a in attrs ==> a.kind in m)
    && (forall t :: t in m ==> Attr(t, m[t]) in attrs)
  }

  predicate UniqueTypes(attrs: seq<Attr>) {
    forall i, j :: 0 <= i < j < |attrs| ==> attrs[i].kind != attrs[j].kind
  }

  /** With one attribute per type there is only one view. */
  lemma ViewOfUnique(attrs: seq<Attr>, m: AttrMap, a: Attr)
    requires IsView(attrs, m) && UniqueTypes(attrs) && a in attrs
    ensures a.kind in m && m[a.kind] == a.data
  {
    assert Attr(a.kind, m[a.kind]) in attrs;
  }

  // ---- error texts ----

  const MISSING := " is missing in request"

  function MissingText(name: string): string { name + MISSING }

  function SizeText(name: string, have: nat, need: nat): string {
    name + " has incorrect size " + Decimal(have) + ". Its size must be " + Decimal(need) + " bytes."
  }

  function WidthText(have: nat): string {
    "SetIntegerParam: unexpected integer size " + Decimal(have)
  }

  /** The text that marks a missing parameter is no other message's text, for any names and sizes. */
  lemma MissingTextIsDistinct(name: string, have: nat, need: nat)
    ensures SizeText(name, have, need) != MissingText(name)
    ensures WidthText(have) != MissingText(name)
  {
    assert SizeText(name, have, need)[|name| + 1] == 'h';
    assert MissingText(name)[|name| + 1] == 'i';
    var w, m := WidthText(have), MissingText(name);
    assert m[|m| - 1] == MISSING[|MISSING| - 1] == 't';
    assert w[|w| - 1] == Decimal(have)[|Decimal(have)| - 1];
    assert 't' !in DIGITS;
  }

  // ---- what a packet must contain ----

  datatype Row =
    | IntRow(kind: uint16, name: string, t: CInt, size: nat)
    | OptionalRow(kind: uint16, name: string, t: CInt, size: nat)
    | TextRow(kind: uint16, name: string)

  predicate IntWidth(n: nat) { n == 1 || n == 2 || n == 4 || n == 8 }

  /** The complaint about one parameter; a `size` of 0 accepts every integer width. */
  function RowError(row: Row, m: AttrMap): Option<string> {
    if row.kind !in m then
      if row.OptionalRow? then None else Some(MissingText(row.name))
    else if row.TextRow? then None
    else
      var have := |m[row.kind]|;
      if row.size != 0 && have != row.size then Some(SizeText(row.name, have, row.size))
      else if IntWidth(have) then None
      else Some(WidthText(have))
  }

  /** The complaint of the first row from `i` on that has one. */
  function FirstError(rows: seq<Row>, m: AttrMap, i: nat): Option<string>
    requires i <= |rows|
    decreases |rows| - i
  {
    if i == |rows| then None
    else if RowError(rows[i], m).Some? then RowError(rows[i], m)
    else FirstError(rows, m, i + 1)
  }

  /** No complaint at all exactly when every row is satisfied. */
  lemma {:induction false} NoErrorIff(rows: seq<Row>, m: AttrMap, i: nat)
    requires i <= |rows|
    ensures FirstError(rows, m, i).None? <==> forall k :: i <= k < |rows| ==> RowError(rows[k], m).None?
    decreases |rows| - i
  {
    if i < |rows| {
      NoErrorIff(rows, m, i + 1);
    }
  }

  lemma {:induction false} FirstErrorIsARowError(rows: seq<Row>, m: AttrMap, i: nat) returns (k: nat)
    requires i <= |rows| && FirstError(rows, m, i).Some?
    ensures i <= k < |rows| && FirstError(rows, m, i) == RowError(rows[k], m)
    ensures forall j :: i <= j < k ==> RowError(rows[j], m).None?
    decreases |rows| - i
  {
    if RowError(rows[i], m).Some? {
      k := i;
    } else {
      k := FirstErrorIsARowError(rows, m, i + 1);
    }
  }

  /** The value a decoder stores: network order, then assignment to the destination type. */
  function IntValue(data: seq<byte>, t: CInt): (v: int)
    ensures InRange(v, t)
  {
    Convert(FromBigEndian(data), t)
  }

  /** A number sent in `width` bytes arrives reduced to the destination type, unchanged if it fits. */
  lemma IntValueOfSent(v: nat, width: nat, t: CInt)
    requires v < Pow256(width)
    ensures IntValue(BigEndian(v, width), t) == Convert(v, t)
    ensures InRange(v, t) ==> IntValue(BigEndian(v, width), t) == v
  {
    BigEndianRoundTrip(v, width);
  }

  /** What the attribute of a type holds; nothing if it is missing. */
  function TextOf(m: AttrMap, kind: uint16): seq<byte> {
    if kind in m then m[kind] else []
  }

  function NumberOf(m: AttrMap, kind: uint16, t: CInt): (v: int)
    ensures InRange(v, t)
  {
    IntValue(TextOf(m, kind), t)
  }

  lemma MissingIsDefault(m: AttrMap, kind: uint16, t: CInt)
    ensures kind !in m ==> NumberOf(m, kind, t) == 0
  {
  }

  // ---- the decoders ----

  /** ntohs, ntohl and ntohll applied to the bytes in memory. */
  method NetworkToHost(data: seq<byte>) returns (v: nat)
    ensures v == FromBigEndian(data)
  {
    v := 0;
    for i := 0 to |data|
      invariant v == FromBigEndian(data[..i])
    {
      v := 256 * v + data[i];
      assert data[..i + 1][..i] == data[..i];
    }
    assert data[..|data|] == data;
  }

  method SetRequiredIntParam(attrs: AttrMap, kind: uint16, name: string, t: CInt,
                             value0: int, error0: string, size: nat := 0)
    returns (ok: bool, value: int, error: string)
    ensures ok <==> RowError(IntRow(kind, name, t, size), attrs).None?
    ensures ok ==> kind in attrs && value == NumberOf(attrs, kind, t) && error == error0
    ensures !ok ==> value == value0 && Some(error) == RowError(IntRow(kind, name, t, size), attrs)
  {
    value := value0;
    if kind !in attrs {
      return false, value, name + " is missing in request";
    }
    var data := attrs[kind];
    if size != 0 && |data| != size {
      return false, value,
        name + " has incorrect size " + Decimal(|data|) + ". Its size must be " + Decimal(size) + " bytes.";
    }
    match |data| {
      case 1 => var v := NetworkToHost(data); value := Convert(v, t);
      case 2 => var v := NetworkToHost(data); value := Convert(v, t);
      case 4 => var v := NetworkToHost(data); value := Convert(v, t);
      case 8 => var v := NetworkToHost(data); value := Convert(v, t);
      case _ => return false, value, "SetIntegerParam: unexpected integer size " + Decimal(|data|);
    }
    return true, value, error0;
  }

  /** The default exactly when the attribute is missing, though only the error text is looked at. */
  method SetOptionalIntParam(attrs: AttrMap, kind: uint16, name: string, t: CInt,
                             value0: int, default: int, error0: string, size: nat := 0)
    returns (ok: bool, value: int, error: string)
    ensures ok <==> RowError(OptionalRow(kind, name, t, size), attrs).None?
    ensures ok && kind !in attrs ==> value == default && error == ""
    ensures ok && kind in attrs ==> value == NumberOf(attrs, kind, t) && error == error0
    ensures !ok ==> value == value0 && Some(error) == RowError(OptionalRow(kind, name, t, size), attrs)
  {
    ok, value, error := SetRequiredIntParam(attrs, kind, name, t, value0, error0, size);
    if kind in attrs {
      MissingTextIsDistinct(name, |attrs[kind]|, size);
    }
    if !ok && error == name + " is missing in request" {
      return true, default, "";
    }
  }

  method SetStringParam(attrs: AttrMap, kind: uint16, name: string, value0: seq<byte>, error0: string)
    returns (ok: bool, value: seq<byte>, error: string)
    ensures ok <==> RowError(TextRow(kind, name), attrs).None?
    ensures ok ==> kind in attrs && value == TextOf(attrs, kind) && error == error0
    ensures !ok ==> value == value0 && Some(error) == RowError(TextRow(kind, name), attrs)
  {
    if kind !in attrs {
      return false, value0, name + " is missing in request";
    }
    return true, attrs[kind], error0;
  }

  /** The default is stored exactly when the attribute is missing, for any name and destination. */
  lemma OptionalClassification(attrs: AttrMap, kind: uint16, name: string, t: CInt, size: nat)
    ensures RowError(IntRow(kind, name, t, size), attrs) == Some(MissingText(name)) <==> kind !in attrs
  {
    if kind in attrs {
      MissingTextIsDistinct(name, |attrs[kind]|, size);
    }
  }

  /** No error text is long: every message fits a response buffer. */
  lemma ErrorTextLength(row: Row, m: AttrMap)
    requires |row.name| <= 64 && (!row.TextRow? ==> row.size < 0x1_0000)
    requires row.kind in m ==> |m[row.kind]| < 0x1_0000
    requires RowError(row, m).Some?
    ensures |RowError(row, m).value| <= 200
  {
    if row.kind in m {
      Decimal16(|m[row.kind]|);
      if !row.TextRow? { Decimal16(row.size); }
    }
  }

  lemma ErrorTextPrintable(row: Row, m: AttrMap)
    requires Printable(row.name) && RowError(row, m).Some?
    ensures Printable(RowError(row, m).value)
  {
    TextsPrintable(row.name, if row.kind in m then |m[row.kind]| else 0, if row.TextRow? then 0 else row.size);
    hide Printable, MissingText, SizeText, WidthText;
  }

  lemma TextsPrintable(name: string, have: nat, need: nat)
    requires Printable(name)
    ensures Printable(MissingText(name)) && Printable(SizeText(name, have, need)) && Printable(WidthText(have))
  {
    LiteralsPrintable();
    hide Printable, Decimal;
    DecimalPrintable(have);
    DecimalPrintable(need);
    PrintableParts(name, MISSING);
    PrintableParts(name, " has incorrect size ");
    PrintableParts(name + " has incorrect size ", Decimal(have));
    PrintableParts(name + " has incorrect size " + Decimal(have), ". Its size must be ");
    PrintableParts(name + " has incorrect size " + Decimal(have) + ". Its size must be ", Decimal(need));
    PrintableParts(name + " has incorrect size " + Decimal(have) + ". Its size must be " + Decimal(need), " bytes.");
    PrintableParts("SetIntegerParam: unexpected integer size ", Decimal(have));
  }

  lemma LiteralsPrintable()
    ensures Printable(MISSING) && Printable(" has incorrect size ") && Printable(". Its size must be ")
    ensures Printable(" bytes.") && Printable("SetIntegerParam: unexpected integer size ")
  {
    hide *;
    WidthLiteralPrintable();
    SizeLiteralsPrintable();
  }

  lemma WidthLiteralPrintable()
    ensures Printable("SetIntegerParam: unexpected integer size ")
  {
  }

  lemma SizeLiteralsPrintable()
    ensures Printable(MISSING) && Printable(" has incorrect size ") && Printable(". Its size must be ")
    ensures Printable(" bytes.")
  {
  }

  // ---- outputs ----

  /** A client's socket address. */
  type Addr = nat
  datatype Datagram = Datagram(to: Addr, data: seq<byte>)

  /** The UDP socket as a log of the send attempts made on it. */
  class UdpSocket {
    var attempts: seq<Datagram>

    method SendTo(to: Addr, data: seq<byte>)
      modifies this
      ensures attempts == old(attempts) + [Datagram(to, data)]
    {
      attempts := attempts + [Datagram(to, data)];
    }
  }

  /** The Kafka producer as a log of the messages handed to it. */
  class Producer {
    var messages: seq<(string, seq<byte>)>

    method Produce(topic: string, data: seq<byte>)
      modifies this
      ensures messages == old(messages) + [(topic, data)]
    {
      messages := messages + [(topic, data)];
    }
  }
}
