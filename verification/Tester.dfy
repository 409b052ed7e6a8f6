/** The test client (tester/main.cpp): the composer of requests and the decoder of responses. */
module Tester {
  import opened Bytes
  import opened Text
  import opened PsPacket
  import opened ClientRequests
  import opened Requests

  // ---- composing requests ----

  function Number(kind: uint16, v: nat, width: nat): Attr { Attr(kind, BigEndian(v, width)) }

  /** The attributes of an SMS request: no IMSI attribute for 0, no origination address for an empty one. */
  function SmsAttrs(p: Params): seq<Attr>
    requires p.Sms?
  {
    (if p.imsi != 0 then [Number(VLD_IMSI, p.imsi, 8)] else [])
    + (if p.oa != [] then [Attr(VLD_OA, p.oa)] else [])
    + [Attr(VLD_DA, p.da), Number(VLD_OAFLAGS, p.oaFlags, 1), Number(VLD_DAFLAGS, p.daFlags, 1),
       Number(VLD_REFNUM, p.refNum, 2), Number(VLD_TOTAL, p.total, 1), Number(VLD_PART, p.part, 1),
       Attr(VLD_SERVINGMSC, p.msc)]
  }

  /** The small numbers of a CAMEL request are sent in one byte. */
  predicate OneByteFields(p: Params) {
    p.Camel? && 0 <= p.callingNoa < 256 && 0 <= p.calledNoa < 256 && 0 <= p.camelEvent < 256 && 0 <= p.serviceKey < 256
  }

  /** The attributes of a quota request; the calling party is left out when no number was given. */
  function CamelAttrs(p: Params, hasCalling: bool): seq<Attr>
    requires OneByteFields(p)
  {
    [Number(CAMEL_IMSI, p.imsi, 8)]
    + (if hasCalling
       then [Number(CAMEL_CALLING_PARTY, p.calling, 8), Number(CAMEL_CALLING_NOA, p.callingNoa, 1)] else [])
    + [Number(CAMEL_CALLED_PARTY, p.called, 8), Number(CAMEL_CALLED_NOA, p.calledNoa, 1),
       Number(CAMEL_CALL_REF_NUM, p.callRef, 8), Number(CAMEL_EVENT_TYPE, p.camelEvent, 1),
       Number(CAMEL_SERVICE_KEY, p.serviceKey, 1)]
  }

  /** A call finish notification is a quota request with the duration, in four bytes, behind it. */
  function FinishAttrs(p: Params, hasCalling: bool, duration: uint32): seq<Attr>
    requires OneByteFields(p)
  {
    CamelAttrs(p, hasCalling) + [Number(CAMEL_TOTAL_DURATION, duration, 4)]
  }

  // ---- reading attributes back through a view ----

  lemma ViewLacks(attrs: seq<Attr>, m: AttrMap, kind: uint16)
    requires IsView(attrs, m) && forall a :: a in attrs ==> a.kind != kind
    ensures kind !in m && TextOf(m, kind) == []
  {
    forall t | t in m ensures t != kind {
      assert Attr(t, m[t]) in attrs;
    }
  }

  lemma TextRead(attrs: seq<Attr>, m: AttrMap, kind: uint16, data: seq<byte>)
    requires IsView(attrs, m) && UniqueTypes(attrs) && Attr(kind, data) in attrs
    ensures kind in m && m[kind] == data && TextOf(m, kind) == data
  {
    ViewOfUnique(attrs, m, Attr(kind, data));
  }

  lemma NumberRead(attrs: seq<Attr>, m: AttrMap, kind: uint16, v: nat, width: nat, t: CInt)
    requires IsView(attrs, m) && UniqueTypes(attrs) && Number(kind, v, width) in attrs
    requires v < Pow256(width) && InRange(v, t)
    ensures kind in m && |m[kind]| == width && NumberOf(m, kind, t) == v
  {
    TextRead(attrs, m, kind, BigEndian(v, width));
    IntValueOfSent(v, width, t);
  }

  // ---- SMS ----

  lemma SmsTypesUnique(p: Params)
    requires p.Sms?
    ensures UniqueTypes(SmsAttrs(p))
  {
    hide BigEndian;
  }

  function SmsFront(imsi: uint64, msisdn: seq<byte>): seq<Attr> {
    (if imsi != 0 then [Number(VLD_IMSI, imsi, 8)] else []) + (if msisdn != [] then [Attr(VLD_OA, msisdn)] else [])
  }

  function SmsTail(p: Params): seq<Attr>
    requires p.Sms?
  {
    [Attr(VLD_DA, p.da), Number(VLD_OAFLAGS, p.oaFlags, 1), Number(VLD_DAFLAGS, p.daFlags, 1),
     Number(VLD_REFNUM, p.refNum, 2), Number(VLD_TOTAL, p.total, 1), Number(VLD_PART, p.part, 1),
     Attr(VLD_SERVINGMSC, p.msc)]
  }

  lemma SmsTailAre(p: Params)
    requires p.Sms?
    ensures var tail := SmsTail(p);
            && (forall a :: a in tail ==> a.kind != VLD_IMSI && a.kind != VLD_OA)
            && Attr(VLD_DA, p.da) in tail && Attr(VLD_SERVINGMSC, p.msc) in tail
            && Number(VLD_OAFLAGS, p.oaFlags, 1) in tail && Number(VLD_DAFLAGS, p.daFlags, 1) in tail
            && Number(VLD_REFNUM, p.refNum, 2) in tail
            && Number(VLD_TOTAL, p.total, 1) in tail && Number(VLD_PART, p.part, 1) in tail
  {
    hide BigEndian;
  }

  lemma SmsAttrsAre(p: Params)
    requires p.Sms?
    ensures var attrs := SmsAttrs(p);
            && (p.imsi != 0 ==> Number(VLD_IMSI, p.imsi, 8) in attrs)
            && (p.imsi == 0 ==> forall a :: a in attrs ==> a.kind != VLD_IMSI)
            && (p.oa != [] ==> Attr(VLD_OA, p.oa) in attrs)
            && (p.oa == [] ==> forall a :: a in attrs ==> a.kind != VLD_OA)
    ensures forall a :: a in SmsTail(p) ==> a in SmsAttrs(p)
  {
    hide BigEndian;
    SmsTailAre(p);
    assert SmsAttrs(p) == SmsFront(p.imsi, p.oa) + SmsTail(p);
    hide SmsTail, SmsAttrs;
  }

  predicate Sized(m: AttrMap, kind: uint16, size: nat) { kind in m && |m[kind]| == size }

  predicate SmsSizes(m: AttrMap) {
    && (VLD_IMSI in m ==> Sized(m, VLD_IMSI, 8)) && VLD_DA in m && VLD_SERVINGMSC in m
    && Sized(m, VLD_OAFLAGS, 1) && Sized(m, VLD_DAFLAGS, 1) && Sized(m, VLD_REFNUM, 2)
    && Sized(m, VLD_TOTAL, 1) && Sized(m, VLD_PART, 1)
  }

  lemma SmsRowsPass(m: AttrMap)
    requires SmsSizes(m)
    ensures forall k :: 0 <= k < |SMS_ROWS| && k != 1 ==> RowError(SMS_ROWS[k], m).None?
  {
    hide MissingText, SizeText, WidthText;
  }

  lemma SmsTextsRead(p: Params, m: AttrMap)
    requires p.Sms? && IsView(SmsAttrs(p), m)
    ensures (VLD_OA in m <==> p.oa != []) && TextOf(m, VLD_OA) == p.oa
    ensures VLD_DA in m && TextOf(m, VLD_DA) == p.da && VLD_SERVINGMSC in m && TextOf(m, VLD_SERVINGMSC) == p.msc
    ensures (VLD_IMSI in m ==> Sized(m, VLD_IMSI, 8)) && NumberOf(m, VLD_IMSI, UInt64) == p.imsi
  {
    var attrs := SmsAttrs(p);
    SmsTypesUnique(p);
    SmsAttrsAre(p);
    SmsTailAre(p);
    Widths();
    hide SmsAttrs, SmsTail, IsView, UniqueTypes, NumberOf, TextOf, Pow256, BigEndian, Number;
    if p.imsi != 0 {
      NumberRead(attrs, m, VLD_IMSI, p.imsi, 8, UInt64);
    } else {
      ViewLacks(attrs, m, VLD_IMSI);
      MissingIsDefault(m, VLD_IMSI, UInt64);
    }
    if p.oa != [] { TextRead(attrs, m, VLD_OA, p.oa); } else { ViewLacks(attrs, m, VLD_OA); }
    TextRead(attrs, m, VLD_DA, p.da);
    TextRead(attrs, m, VLD_SERVINGMSC, p.msc);
  }

  lemma SmsNumbersRead(p: Params, m: AttrMap)
    requires p.Sms? && IsView(SmsAttrs(p), m)
    ensures Sized(m, VLD_OAFLAGS, 1) && NumberOf(m, VLD_OAFLAGS, UInt8) == p.oaFlags
    ensures Sized(m, VLD_DAFLAGS, 1) && NumberOf(m, VLD_DAFLAGS, UInt8) == p.daFlags
    ensures Sized(m, VLD_REFNUM, 2) && NumberOf(m, VLD_REFNUM, UInt16) == p.refNum
    ensures Sized(m, VLD_TOTAL, 1) && NumberOf(m, VLD_TOTAL, UInt8) == p.total
    ensures Sized(m, VLD_PART, 1) && NumberOf(m, VLD_PART, UInt8) == p.part
  {
    var attrs := SmsAttrs(p);
    SmsTypesUnique(p);
    SmsAttrsAre(p);
    SmsTailAre(p);
    Widths();
    hide SmsAttrs, SmsTail, IsView, UniqueTypes, NumberOf, TextOf, Pow256, BigEndian, Number;
    NumberRead(attrs, m, VLD_OAFLAGS, p.oaFlags, 1, UInt8);
    NumberRead(attrs, m, VLD_DAFLAGS, p.daFlags, 1, UInt8);
    NumberRead(attrs, m, VLD_REFNUM, p.refNum, 2, UInt16);
    NumberRead(attrs, m, VLD_TOTAL, p.total, 1, UInt8);
    NumberRead(attrs, m, VLD_PART, p.part, 1, UInt8);
  }

  lemma SmsAttrsRead(p: Params, m: AttrMap)
    requires p.Sms? && IsView(SmsAttrs(p), m)
    ensures SmsParams(m) == p
    ensures VLD_OA in m <==> p.oa != []
    ensures SmsSizes(m)
  {
    SmsTextsRead(p, m);
    SmsNumbersRead(p, m);
    hide SmsAttrs, IsView, NumberOf, TextOf, Sized;
  }

  /** The row of the origination address decides alone. */
  lemma SmsChecked(m: AttrMap)
    requires forall k :: 0 <= k < |SMS_ROWS| && k != 1 ==> RowError(SMS_ROWS[k], m).None?
    ensures FirstError(SMS_ROWS, m, 0) == if VLD_OA in m then None else Some(MissingText("Origination address"))
  {
    assert RowError(SMS_ROWS[1], m) == if VLD_OA in m then None else Some(MissingText("Origination address"));
    hide RowError, MissingText;
    if VLD_OA in m {
      NoErrorIff(SMS_ROWS, m, 0);
    } else {
      assert FirstError(SMS_ROWS, m, 0) == FirstError(SMS_ROWS, m, 1);
    }
  }

  lemma SmsClassified(p: Params, m: AttrMap)
    requires p.Sms? && IsView(SmsAttrs(p), m)
    ensures Classify(VALIDATEEX_REQ, m)
         == if p.oa == [] then Rejected(MissingText("Origination address")) else Accepted(p)
  {
    SmsAttrsRead(p, m);
    SmsRowsPass(m);
    SmsChecked(m);
    hide SmsParams, SmsSizes, SmsAttrs, IsView, RowError, FirstError;
  }

  /** The packet at the front of some bytes is this one. */
  predicate Carries(bs: seq<byte>, num: uint32, kind: uint16, attrs: seq<Attr>) {
    Parse(bs).Some? && (Parse(bs).value.num, Parse(bs).value.kind, Parse(bs).value.attrs) == (num, kind, attrs)
  }

  /**
   Composing an SMS request, parsing it and validating it recovers every field, whatever view the parser's
   multimap gives; the one request that is rejected is the one without an origination address.
   */
  lemma SmsRequestRoundTrip(num: uint32, p: Params, rest: seq<byte>, m: AttrMap)
    requires p.Sms? && Fits(SmsAttrs(p)) && IsView(SmsAttrs(p), m)
    ensures Carries(Build(num, VALIDATEEX_REQ, SmsAttrs(p)) + rest, num, VALIDATEEX_REQ, SmsAttrs(p))
    ensures Classify(VALIDATEEX_REQ, m)
         == if p.oa == [] then Rejected(MissingText("Origination address")) else Accepted(p)
  {
    SmsClassified(p, m);
    hide SmsAttrs, IsView, Classify;
    ParseBuild(num, VALIDATEEX_REQ, SmsAttrs(p), rest);
  }

  // ---- CAMEL ----

  lemma FinishTypesUnique(p: Params, hasCalling: bool, duration: uint32)
    requires OneByteFields(p)
    ensures UniqueTypes(FinishAttrs(p, hasCalling, duration)) && UniqueTypes(CamelAttrs(p, hasCalling))
  {
    hide BigEndian;
  }

  lemma CamelAttrsAre(p: Params, hasCalling: bool)
    requires OneByteFields(p)
    ensures var attrs := CamelAttrs(p, hasCalling);
            && Number(CAMEL_IMSI, p.imsi, 8) in attrs
            && (hasCalling ==> Number(CAMEL_CALLING_PARTY, p.calling, 8) in attrs
                               && Number(CAMEL_CALLING_NOA, p.callingNoa, 1) in attrs)
            && (!hasCalling ==> forall a :: a in attrs ==> a.kind != CAMEL_CALLING_PARTY)
            && Number(CAMEL_CALLED_PARTY, p.called, 8) in attrs && Number(CAMEL_CALLED_NOA, p.calledNoa, 1) in attrs
            && Number(CAMEL_CALL_REF_NUM, p.callRef, 8) in attrs
            && Number(CAMEL_EVENT_TYPE, p.camelEvent, 1) in attrs && Number(CAMEL_SERVICE_KEY, p.serviceKey, 1) in attrs
  {
    hide BigEndian;
    var attrs := CamelAttrs(p, hasCalling);
    var k := |attrs| - 5;
    assert attrs[0] == Number(CAMEL_IMSI, p.imsi, 8);
    assert hasCalling ==> attrs[1] == Number(CAMEL_CALLING_PARTY, p.calling, 8)
                          && attrs[2] == Number(CAMEL_CALLING_NOA, p.callingNoa, 1);
    assert attrs[k..] == [attrs[k], attrs[k + 1], attrs[k + 2], attrs[k + 3], attrs[k + 4]];
  }

  predicate CamelSizes(m: AttrMap) {
    && Sized(m, CAMEL_IMSI, 8) && Sized(m, CAMEL_CALLING_PARTY, 8) && Sized(m, CAMEL_CALLING_NOA, 1)
    && Sized(m, CAMEL_CALLED_PARTY, 8) && Sized(m, CAMEL_CALLED_NOA, 1) && Sized(m, CAMEL_CALL_REF_NUM, 8)
    && Sized(m, CAMEL_EVENT_TYPE, 1) && Sized(m, CAMEL_SERVICE_KEY, 1)
  }

  lemma CamelRowsPass(m: AttrMap)
    requires CamelSizes(m)
    ensures forall row :: row in CAMEL_ROWS ==> RowError(row, m).None?
  {
    hide MissingText, SizeText, WidthText;
  }

  lemma CamelAttrsRead(p: Params, m: AttrMap)
    requires OneByteFields(p) && IsView(CamelAttrs(p, true), m)
    ensures CamelParams(m) == p
    ensures CamelSizes(m)
  {
    var attrs := CamelAttrs(p, true);
    FinishTypesUnique(p, true, 0);
    CamelAttrsAre(p, true);
    Widths();
    hide CamelAttrs, IsView, UniqueTypes, NumberOf, TextOf, Pow256, BigEndian, Number;
    NumberRead(attrs, m, CAMEL_IMSI, p.imsi, 8, UInt64);
    NumberRead(attrs, m, CAMEL_CALLING_PARTY, p.calling, 8, UInt64);
    NumberRead(attrs, m, CAMEL_CALLING_NOA, p.callingNoa, 1, Int16);
    NumberRead(attrs, m, CAMEL_CALLED_PARTY, p.called, 8, UInt64);
    NumberRead(attrs, m, CAMEL_CALLED_NOA, p.calledNoa, 1, Int16);
    NumberRead(attrs, m, CAMEL_CALL_REF_NUM, p.callRef, 8, UInt64);
    NumberRead(attrs, m, CAMEL_EVENT_TYPE, p.camelEvent, 1, Int16);
    NumberRead(attrs, m, CAMEL_SERVICE_KEY, p.serviceKey, 1, Int16);
  }

  lemma CamelWithoutCalling(p: Params, m: AttrMap)
    requires OneByteFields(p) && IsView(CamelAttrs(p, false), m)
    ensures FirstError(CAMEL_ROWS, m, 0) == Some(MissingText("Calling Party Number"))
  {
    var attrs := CamelAttrs(p, false);
    FinishTypesUnique(p, false, 0);
    CamelAttrsAre(p, false);
    Widths();
    hide CamelAttrs, IsView, UniqueTypes, NumberOf, TextOf, Pow256, BigEndian, Number;
    NumberRead(attrs, m, CAMEL_IMSI, p.imsi, 8, UInt64);
    ViewLacks(attrs, m, CAMEL_CALLING_PARTY);
    assert FirstError(CAMEL_ROWS, m, 0) == FirstError(CAMEL_ROWS, m, 1) == RowError(CAMEL_ROWS[1], m);
  }

  lemma CamelClassified(p: Params, m: AttrMap)
    requires OneByteFields(p) && IsView(CamelAttrs(p, true), m)
    ensures Classify(QUOTA_REQ, m) == Accepted(p)
  {
    CamelAttrsRead(p, m);
    CamelRowsPass(m);
    AcceptedIff(CAMEL_ROWS, m, CamelParams(m));
    hide CamelAttrs, CamelSizes, IsView, CamelParams, RowError, FirstError;
  }

  /** The same for quota requests: rejected exactly when no calling number was given. */
  lemma QuotaRequestRoundTrip(num: uint32, p: Params, hasCalling: bool, rest: seq<byte>, m: AttrMap)
    requires OneByteFields(p) && Fits(CamelAttrs(p, hasCalling)) && IsView(CamelAttrs(p, hasCalling), m)
    ensures Carries(Build(num, QUOTA_REQ, CamelAttrs(p, hasCalling)) + rest, num, QUOTA_REQ, CamelAttrs(p, hasCalling))
    ensures Classify(QUOTA_REQ, m)
         == if hasCalling then Accepted(p) else Rejected(MissingText("Calling Party Number"))
  {
    hide CamelAttrs, IsView, CamelParams, RowError, FirstError, OneByteFields;
    if hasCalling { CamelClassified(p, m); } else { CamelWithoutCalling(p, m); }
    ParseBuild(num, QUOTA_REQ, CamelAttrs(p, hasCalling), rest);
  }

  lemma FinishClassified(p: Params, hasCalling: bool, duration: uint32, m: AttrMap)
    requires OneByteFields(p) && IsView(FinishAttrs(p, hasCalling, duration), m)
    ensures Classify(CALL_FINISH_INFO, m) == Accepted(Finish(p.imsi, p.callRef, p.camelEvent, duration))
  {
    FinishAttrsRead(p, hasCalling, duration, m);
    FinishRowsPass(m);
    AcceptedIff(FINISH_ROWS, m, FinishParams(m));
    hide FinishAttrs, FinishSizes, IsView, FinishParams, RowError, FirstError;
  }

  /** A call finish notification is accepted with or without the calling party, which it does not read. */
  lemma FinishRequestRoundTrip(num: uint32, p: Params, hasCalling: bool, duration: uint32, rest: seq<byte>, m: AttrMap)
    requires OneByteFields(p) && Fits(FinishAttrs(p, hasCalling, duration))
    requires IsView(FinishAttrs(p, hasCalling, duration), m)
    ensures Carries(Build(num, CALL_FINISH_INFO, FinishAttrs(p, hasCalling, duration)) + rest,
                    num, CALL_FINISH_INFO, FinishAttrs(p, hasCalling, duration))
    ensures Classify(CALL_FINISH_INFO, m) == Accepted(Finish(p.imsi, p.callRef, p.camelEvent, duration))
  {
    FinishClassified(p, hasCalling, duration, m);
    hide FinishAttrs, IsView, Classify;
    ParseBuild(num, CALL_FINISH_INFO, FinishAttrs(p, hasCalling, duration), rest);
  }

  // ---- requests of other clients: numbers in any width ----

  /** The number is sent under this type, in one of the widths the server reads. */
  predicate Sends(attrs: seq<Attr>, kind: uint16, v: nat, width: nat) {
    Number(kind, v, width) in attrs && IntWidth(width) && v < Pow256(width)
  }

  lemma NumberArrives(attrs: seq<Attr>, m: AttrMap, kind: uint16, v: nat, width: nat, t: CInt)
    requires IsView(attrs, m) && UniqueTypes(attrs) && Sends(attrs, kind, v, width)
    ensures kind in m && IntWidth(|m[kind]|) && NumberOf(m, kind, t) == Convert(v, t)
  {
    ViewOfUnique(attrs, m, Number(kind, v, width));
    IntValueOfSent(v, width, t);
    hide Convert;
  }

  lemma NumbersArrive(attrs: seq<Attr>, m: AttrMap, rows: seq<Row>, v: uint16 -> nat, width: uint16 -> nat)
    requires IsView(attrs, m) && UniqueTypes(attrs)
    requires forall row :: row in rows ==>
               row.IntRow? && row.size == 0 && Sends(attrs, row.kind, v(row.kind), width(row.kind))
    ensures forall row :: row in rows ==>
              RowError(row, m).None? && NumberOf(m, row.kind, row.t) == Convert(v(row.kind), row.t)
  {
    hide IsView, UniqueTypes, Sends, NumberOf, Convert;
    forall row | row in rows
      ensures RowError(row, m).None? && NumberOf(m, row.kind, row.t) == Convert(v(row.kind), row.t)
    {
      NumberArrives(attrs, m, row.kind, v(row.kind), width(row.kind), row.t);
    }
  }

  /**
   A quota request with its numbers in any mixture of the widths 1, 2, 4 and 8, in any order and among any
   other attributes, is accepted; every field arrives reduced to its type, unchanged if it fits.
   */
  lemma QuotaAnyWidths(attrs: seq<Attr>, m: AttrMap, v: uint16 -> nat, width: uint16 -> nat)
    requires IsView(attrs, m) && UniqueTypes(attrs)
    requires forall row :: row in CAMEL_ROWS ==> Sends(attrs, row.kind, v(row.kind), width(row.kind))
    ensures Classify(QUOTA_REQ, m) == Accepted(
              Camel(Convert(v(CAMEL_IMSI), UInt64), Convert(v(CAMEL_CALLING_PARTY), UInt64),
                    Convert(v(CAMEL_CALLING_NOA), Int16), Convert(v(CAMEL_CALLED_PARTY), UInt64),
                    Convert(v(CAMEL_CALLED_NOA), Int16), Convert(v(CAMEL_CALL_REF_NUM), UInt64),
                    Convert(v(CAMEL_EVENT_TYPE), Int16), Convert(v(CAMEL_SERVICE_KEY), Int16)))
  {
    hide *;
    CamelRowsAre();
    NumbersArrive(attrs, m, CAMEL_ROWS, v, width);
    AcceptedIff(CAMEL_ROWS, m, CamelParams(m));
    CamelParamsAre(m);
  }

  lemma CamelRowsAre()
    ensures forall row :: row in CAMEL_ROWS ==> row.IntRow? && row.size == 0
    ensures IntRow(CAMEL_IMSI, "IMSI", UInt64, 0) in CAMEL_ROWS
    ensures IntRow(CAMEL_CALLING_PARTY, "Calling Party Number", UInt64, 0) in CAMEL_ROWS
    ensures IntRow(CAMEL_CALLING_NOA, "Calling Party Number Nature Of Address", Int16, 0) in CAMEL_ROWS
    ensures IntRow(CAMEL_CALLED_PARTY, "Called Party Number", UInt64, 0) in CAMEL_ROWS
    ensures IntRow(CAMEL_CALLED_NOA, "Called Party Number Nature Of Address", Int16, 0) in CAMEL_ROWS
    ensures IntRow(CAMEL_CALL_REF_NUM, "Call Reference Number", UInt64, 0) in CAMEL_ROWS
    ensures IntRow(CAMEL_EVENT_TYPE, "Event type", Int16, 0) in CAMEL_ROWS
    ensures IntRow(CAMEL_SERVICE_KEY, "Service key", Int16, 0) in CAMEL_ROWS
  {
  }

  lemma CamelParamsAre(m: AttrMap)
    ensures CamelParams(m)
         == Camel(NumberOf(m, CAMEL_IMSI, UInt64), NumberOf(m, CAMEL_CALLING_PARTY, UInt64),
                  NumberOf(m, CAMEL_CALLING_NOA, Int16), NumberOf(m, CAMEL_CALLED_PARTY, UInt64),
                  NumberOf(m, CAMEL_CALLED_NOA, Int16), NumberOf(m, CAMEL_CALL_REF_NUM, UInt64),
                  NumberOf(m, CAMEL_EVENT_TYPE, Int16), NumberOf(m, CAMEL_SERVICE_KEY, Int16))
    ensures Checked(CAMEL_ROWS, m, CamelParams(m)).Success? ==> Classify(QUOTA_REQ, m) == Accepted(CamelParams(m))
  {
    hide FirstError, NumberOf;
  }

  /** The same for a call finish notification. */
  lemma FinishAnyWidths(attrs: seq<Attr>, m: AttrMap, v: uint16 -> nat, width: uint16 -> nat)
    requires IsView(attrs, m) && UniqueTypes(attrs)
    requires forall row :: row in FINISH_ROWS ==> Sends(attrs, row.kind, v(row.kind), width(row.kind))
    ensures Classify(CALL_FINISH_INFO, m) == Accepted(
              Finish(Convert(v(CAMEL_IMSI), UInt64), Convert(v(CAMEL_CALL_REF_NUM), UInt64),
                     Convert(v(CAMEL_EVENT_TYPE), UInt8), Convert(v(CAMEL_TOTAL_DURATION), Int64)))
  {
    hide *;
    FinishRowsAre();
    NumbersArrive(attrs, m, FINISH_ROWS, v, width);
    AcceptedIff(FINISH_ROWS, m, FinishParams(m));
    FinishParamsAre(m);
  }

  lemma FinishRowsAre()
    ensures forall row :: row in FINISH_ROWS ==> row.IntRow? && row.size == 0
    ensures IntRow(CAMEL_IMSI, "IMSI", UInt64, 0) in FINISH_ROWS
    ensures IntRow(CAMEL_CALL_REF_NUM, "Call Reference Number", UInt64, 0) in FINISH_ROWS
    ensures IntRow(CAMEL_EVENT_TYPE, "Event type", UInt8, 0) in FINISH_ROWS
    ensures IntRow(CAMEL_TOTAL_DURATION, "Total duration (chunks)", Int64, 0) in FINISH_ROWS
  {
  }

  lemma FinishParamsAre(m: AttrMap)
    ensures FinishParams(m)
         == Finish(NumberOf(m, CAMEL_IMSI, UInt64), NumberOf(m, CAMEL_CALL_REF_NUM, UInt64),
                   NumberOf(m, CAMEL_EVENT_TYPE, UInt8), NumberOf(m, CAMEL_TOTAL_DURATION, Int64))
    ensures Checked(FINISH_ROWS, m, FinishParams(m)).Success? ==>
              Classify(CALL_FINISH_INFO, m) == Accepted(FinishParams(m))
  {
    hide FirstError, NumberOf;
  }

  predicate FinishSizes(m: AttrMap) {
    && Sized(m, CAMEL_IMSI, 8) && Sized(m, CAMEL_CALL_REF_NUM, 8) && Sized(m, CAMEL_EVENT_TYPE, 1)
    && Sized(m, CAMEL_TOTAL_DURATION, 4)
  }

  lemma FinishRowsPass(m: AttrMap)
    requires FinishSizes(m)
    ensures forall row :: row in FINISH_ROWS ==> RowError(row, m).None?
  {
    hide MissingText, SizeText, WidthText;
  }

  lemma FinishAttrsAre(p: Params, hasCalling: bool, duration: uint32)
    requires OneByteFields(p)
    ensures var attrs := FinishAttrs(p, hasCalling, duration);
            && Number(CAMEL_IMSI, p.imsi, 8) in attrs && Number(CAMEL_CALL_REF_NUM, p.callRef, 8) in attrs
            && Number(CAMEL_EVENT_TYPE, p.camelEvent, 1) in attrs && Number(CAMEL_TOTAL_DURATION, duration, 4) in attrs
  {
    CamelAttrsAre(p, hasCalling);
    hide CamelAttrs, Number;
    var attrs := FinishAttrs(p, hasCalling, duration);
    assert forall a :: a in CamelAttrs(p, hasCalling) ==> a in attrs;
    assert attrs[|attrs| - 1] == Number(CAMEL_TOTAL_DURATION, duration, 4);
  }

  lemma FinishAttrsRead(p: Params, hasCalling: bool, duration: uint32, m: AttrMap)
    requires OneByteFields(p) && IsView(FinishAttrs(p, hasCalling, duration), m)
    ensures FinishParams(m) == Finish(p.imsi, p.callRef, p.camelEvent, duration)
    ensures FinishSizes(m)
  {
    var attrs := FinishAttrs(p, hasCalling, duration);
    FinishTypesUnique(p, hasCalling, duration);
    FinishAttrsAre(p, hasCalling, duration);
    Widths();
    hide FinishAttrs, CamelAttrs, IsView, UniqueTypes, NumberOf, TextOf, Pow256, BigEndian, Number;
    NumberRead(attrs, m, CAMEL_IMSI, p.imsi, 8, UInt64);
    NumberRead(attrs, m, CAMEL_CALL_REF_NUM, p.callRef, 8, UInt64);
    NumberRead(attrs, m, CAMEL_EVENT_TYPE, p.camelEvent, 1, UInt8);
    NumberRead(attrs, m, CAMEL_TOTAL_DURATION, duration, 4, Int64);
  }

  // ---- the composer ----

  const BUFFER_SIZE := 1024
  const DESTINATION: seq<byte> := Octets("79506650600")
  const DESTINATION_NUMBER: uint64 := 79506650600
  const SERVING_MSC: seq<byte> := Octets("79506656021")

  /** The requests the menu of the test client sends. */
  function TestSms(imsi: uint64, msisdn: seq<byte>): Params {
    Sms(imsi, msisdn, DESTINATION, 145, 145, 1000, 3, 1, SERVING_MSC)
  }

  function TestQuota(imsi: uint64, calling: uint64): Params {
    Camel(imsi, calling, 1, DESTINATION_NUMBER, 1, 123000123, 12, 2)
  }

  const TEST_DURATION: uint32 := 6340

  function TestAttrs(requestType: uint16, imsi: uint64, msisdn: seq<byte>, calling: uint64): seq<Attr> {
    if requestType == VALIDATEEX_REQ then SmsAttrs(TestSms(imsi, msisdn))
    else if requestType == QUOTA_REQ then CamelAttrs(TestQuota(imsi, calling), msisdn != [])
    else FinishAttrs(TestQuota(imsi, calling), msisdn != [], TEST_DURATION)
  }

  /** The attributes that get into the buffer: one for which there is no room is left out. */
  function Kept(attrs: seq<Attr>): seq<Attr> {
    if attrs == [] then []
    else
      var kept, last := Kept(attrs[..|attrs| - 1]), attrs[|attrs| - 1];
      if HasRoom(kept, last, BUFFER_SIZE) then kept + [last] else kept
  }

  /** What the last `AddAttr` returns is what is sent: nothing, when that attribute was left out. */
  function SentLength(num: uint32, kind: uint16, attrs: seq<Attr>): nat {
    if attrs != [] && HasRoom(Kept(attrs[..|attrs| - 1]), attrs[|attrs| - 1], BUFFER_SIZE)
    then |Build(num, kind, Kept(attrs))| else 0
  }

  function SentBytes(num: uint32, kind: uint16, attrs: seq<Attr>): seq<byte> {
    if SentLength(num, kind, attrs) > 0 then Build(num, kind, Kept(attrs)) else []
  }

  lemma KeptNext(num: uint32, kind: uint16, attrs: seq<Attr>, a: Attr)
    ensures Kept(attrs + [a]) == if HasRoom(Kept(attrs), a, BUFFER_SIZE) then Kept(attrs) + [a] else Kept(attrs)
    ensures SentLength(num, kind, attrs + [a])
         == if HasRoom(Kept(attrs), a, BUFFER_SIZE) then |Build(num, kind, Kept(attrs + [a]))| else 0
    ensures SentLength(num, kind, attrs + [a]) > 0 <==> HasRoom(Kept(attrs), a, BUFFER_SIZE)
  {
    hide HasRoom, Build;
    assert (attrs + [a])[..|attrs|] == attrs;
  }

  /** An attribute is left out if and only if with it the packet would be longer than 1024 bytes. */
  lemma RoomIs(num: uint32, kind: uint16, attrs: seq<Attr>, a: Attr)
    ensures Kept(attrs + [a])
         == if |Build(num, kind, Kept(attrs) + [a])| <= 1024 then Kept(attrs) + [a] else Kept(attrs)
    ensures SentBytes(num, kind, attrs + [a])
         == if |Build(num, kind, Kept(attrs) + [a])| <= 1024 then Build(num, kind, Kept(attrs) + [a]) else []
  {
    KeptNext(num, kind, attrs, a);
    hide Kept, AttrsBytes, SentLength;
  }

  /** When all attributes together have room, all are kept. */
  lemma {:induction false} KeptAll(attrs: seq<Attr>)
    requires HEADER_SIZE + |AttrsBytes(attrs)| <= BUFFER_SIZE
    ensures Kept(attrs) == attrs
  {
    if attrs != [] {
      var front, last := attrs[..|attrs| - 1], attrs[|attrs| - 1];
      assert attrs == front + [last];
      hide AttrsBytes, HasRoom;
      AttrsBytesAppend(front, last);
      KeptAll(front);
      RoomFor(front, last);
    }
  }

  lemma RoomFor(attrs: seq<Attr>, a: Attr)
    requires HEADER_SIZE + |AttrsBytes(attrs + [a])| <= BUFFER_SIZE
    ensures HasRoom(attrs, a, BUFFER_SIZE)
  {
    hide AttrsBytes;
  }

  lemma WholeSent(num: uint32, kind: uint16, attrs: seq<Attr>)
    requires attrs != [] && HEADER_SIZE + |AttrsBytes(attrs)| <= BUFFER_SIZE
    ensures SentBytes(num, kind, attrs) == Build(num, kind, attrs)
  {
    hide *;
    var front, last := attrs[..|attrs| - 1], attrs[|attrs| - 1];
    assert attrs == front + [last];
    AttrsBytesAppend(front, last);
    KeptAll(front);
    KeptAll(attrs);
    RoomFor(front, last);
    KeptNext(num, kind, front, last);
    SentIfLength(num, kind, attrs);
  }

  lemma SentIfLength(num: uint32, kind: uint16, attrs: seq<Attr>)
    requires SentLength(num, kind, attrs) > 0
    ensures SentBytes(num, kind, attrs) == Build(num, kind, Kept(attrs))
  {
    hide SentLength, Build, Kept;
  }

  method Put(buffer: array<byte>, kind: uint16, data: seq<byte>, ghost num: uint32, ghost packetKind: uint16,
             ghost attrs: seq<Attr>) returns (len: nat)
    requires Contains(buffer, num, packetKind, Kept(attrs)) && buffer.Length == BUFFER_SIZE
    modifies buffer
    ensures Contains(buffer, num, packetKind, Kept(attrs + [Attr(kind, data)]))
    ensures len == SentLength(num, packetKind, attrs + [Attr(kind, data)])
  {
    KeptNext(num, packetKind, attrs, Attr(kind, data));
    hide Kept, HasRoom, Build, SentLength;
    len := AddAttr(buffer, kind, data, num, packetKind, Kept(attrs));
    if len == 0 {
      ghost var packet := Build(num, packetKind, Kept(attrs));
      assert buffer[..|packet|] == buffer[..][..|packet|];
    }
  }

  method PutNumber(buffer: array<byte>, kind: uint16, v: nat, width: nat, ghost num: uint32, ghost packetKind: uint16,
                   ghost attrs: seq<Attr>) returns (len: nat)
    requires Contains(buffer, num, packetKind, Kept(attrs)) && buffer.Length == BUFFER_SIZE
    modifies buffer
    ensures Contains(buffer, num, packetKind, Kept(attrs + [Number(kind, v, width)]))
    ensures len == SentLength(num, packetKind, attrs + [Number(kind, v, width)])
  {
    len := Put(buffer, kind, BigEndian(v, width), num, packetKind, attrs);
  }

  /** The attributes in the order they are appended. */
  lemma SmsAppended(imsi: uint64, msisdn: seq<byte>)
    ensures SmsAttrs(TestSms(imsi, msisdn))
         == SmsFront(imsi, msisdn) + [Attr(VLD_DA, DESTINATION)] + [Number(VLD_OAFLAGS, 145, 1)]
            + [Number(VLD_DAFLAGS, 145, 1)] + [Number(VLD_REFNUM, 1000, 2)] + [Number(VLD_TOTAL, 3, 1)]
            + [Number(VLD_PART, 1, 1)] + [Attr(VLD_SERVINGMSC, SERVING_MSC)]
  {
    hide Number;
  }

  lemma CamelAppended(imsi: uint64, hasCalling: bool, calling: uint64)
    ensures CamelAttrs(TestQuota(imsi, calling), hasCalling)
         == CamelFront(imsi, hasCalling, calling)
            + [Number(CAMEL_CALLED_PARTY, DESTINATION_NUMBER, 8)] + [Number(CAMEL_CALLED_NOA, 1, 1)]
            + [Number(CAMEL_CALL_REF_NUM, 123000123, 8)] + [Number(CAMEL_EVENT_TYPE, 12, 1)]
            + [Number(CAMEL_SERVICE_KEY, 2, 1)]
  {
    hide Number;
  }

  function CamelFront(imsi: uint64, hasCalling: bool, calling: uint64): seq<Attr> {
    [Number(CAMEL_IMSI, imsi, 8)]
    + if hasCalling then [Number(CAMEL_CALLING_PARTY, calling, 8), Number(CAMEL_CALLING_NOA, 1, 1)] else []
  }

  method PutSms(buffer: array<byte>, imsi: uint64, msisdn: seq<byte>, ghost num: uint32) returns (len: nat)
    requires Contains(buffer, num, VALIDATEEX_REQ, []) && buffer.Length == BUFFER_SIZE
    modifies buffer
    ensures Contains(buffer, num, VALIDATEEX_REQ, Kept(SmsAttrs(TestSms(imsi, msisdn))))
    ensures len == SentLength(num, VALIDATEEX_REQ, SmsAttrs(TestSms(imsi, msisdn)))
  {
    ghost var attrs: seq<Attr> := [];
    assert Kept(attrs) == [];
    hide Contains, Build, Number, AttrsBytes, Kept, SentLength;
    if imsi != 0 {
      len := PutNumber(buffer, VLD_IMSI, imsi, 8, num, VALIDATEEX_REQ, attrs);
      attrs := attrs + [Number(VLD_IMSI, imsi, 8)];
    }
    if msisdn != [] {
      len := Put(buffer, VLD_OA, msisdn, num, VALIDATEEX_REQ, attrs);
      attrs := attrs + [Attr(VLD_OA, msisdn)];
    }
    assert attrs == SmsFront(imsi, msisdn);
    hide SmsFront, SmsAttrs;
    SmsAppended(imsi, msisdn);
    len := Put(buffer, VLD_DA, DESTINATION, num, VALIDATEEX_REQ, attrs);
    attrs := attrs + [Attr(VLD_DA, DESTINATION)];
    len := PutNumber(buffer, VLD_OAFLAGS, 145, 1, num, VALIDATEEX_REQ, attrs);
    attrs := attrs + [Number(VLD_OAFLAGS, 145, 1)];
    len := PutNumber(buffer, VLD_DAFLAGS, 145, 1, num, VALIDATEEX_REQ, attrs);
    attrs := attrs + [Number(VLD_DAFLAGS, 145, 1)];
    len := PutNumber(buffer, VLD_REFNUM, 1000, 2, num, VALIDATEEX_REQ, attrs);
    attrs := attrs + [Number(VLD_REFNUM, 1000, 2)];
    len := PutNumber(buffer, VLD_TOTAL, 3, 1, num, VALIDATEEX_REQ, attrs);
    attrs := attrs + [Number(VLD_TOTAL, 3, 1)];
    len := PutNumber(buffer, VLD_PART, 1, 1, num, VALIDATEEX_REQ, attrs);
    attrs := attrs + [Number(VLD_PART, 1, 1)];
    len := Put(buffer, VLD_SERVINGMSC, SERVING_MSC, num, VALIDATEEX_REQ, attrs);
    attrs := attrs + [Attr(VLD_SERVINGMSC, SERVING_MSC)];
  }

  method PutCamel(buffer: array<byte>, kind: uint16, imsi: uint64, hasCalling: bool, calling: uint64, ghost num: uint32)
    returns (len: nat)
    requires Contains(buffer, num, kind, []) && buffer.Length == BUFFER_SIZE
    modifies buffer
    ensures Contains(buffer, num, kind, Kept(CamelAttrs(TestQuota(imsi, calling), hasCalling)))
    ensures len == SentLength(num, kind, CamelAttrs(TestQuota(imsi, calling), hasCalling))
  {
    ghost var attrs: seq<Attr> := [];
    assert Kept(attrs) == [];
    hide Contains, Build, Number, AttrsBytes, Kept, SentLength;
    len := PutNumber(buffer, CAMEL_IMSI, imsi, 8, num, kind, attrs);
    attrs := attrs + [Number(CAMEL_IMSI, imsi, 8)];
    if hasCalling {
      len := PutNumber(buffer, CAMEL_CALLING_PARTY, calling, 8, num, kind, attrs);
      attrs := attrs + [Number(CAMEL_CALLING_PARTY, calling, 8)];
      len := PutNumber(buffer, CAMEL_CALLING_NOA, 1, 1, num, kind, attrs);
      attrs := attrs + [Number(CAMEL_CALLING_NOA, 1, 1)];
    }
    assert attrs == CamelFront(imsi, hasCalling, calling);
    hide CamelFront, CamelAttrs;
    CamelAppended(imsi, hasCalling, calling);
    len := PutNumber(buffer, CAMEL_CALLED_PARTY, DESTINATION_NUMBER, 8, num, kind, attrs);
    attrs := attrs + [Number(CAMEL_CALLED_PARTY, DESTINATION_NUMBER, 8)];
    len := PutNumber(buffer, CAMEL_CALLED_NOA, 1, 1, num, kind, attrs);
    attrs := attrs + [Number(CAMEL_CALLED_NOA, 1, 1)];
    len := PutNumber(buffer, CAMEL_CALL_REF_NUM, 123000123, 8, num, kind, attrs);
    attrs := attrs + [Number(CAMEL_CALL_REF_NUM, 123000123, 8)];
    len := PutNumber(buffer, CAMEL_EVENT_TYPE, 12, 1, num, kind, attrs);
    attrs := attrs + [Number(CAMEL_EVENT_TYPE, 12, 1)];
    len := PutNumber(buffer, CAMEL_SERVICE_KEY, 2, 1, num, kind, attrs);
    attrs := attrs + [Number(CAMEL_SERVICE_KEY, 2, 1)];
  }

  /**
   Fills a buffer attribute by attribute and returns what is handed to `sendto`. `calling` is the number
   strtoull reads from the MSISDN.
   */
  method ComposeRequest(requestType: uint16, origImsi: uint64, origMsisdn: seq<byte>, calling: uint64,
                        requestNum: uint32)
    returns (datagram: seq<byte>)
    ensures datagram == if requestType == VALIDATEEX_REQ || requestType == QUOTA_REQ || requestType == CALL_FINISH_INFO
                        then SentBytes(requestNum, requestType, TestAttrs(requestType, origImsi, origMsisdn, calling))
                        else []
  {
    hide Build, Number, AttrsBytes, SmsAttrs, CamelAttrs, Kept, SentLength;
    var buffer := new byte[BUFFER_SIZE](_ => 0);
    var res := Init(buffer, requestNum, requestType);
    var len := 0;
    if requestType == VALIDATEEX_REQ {
      len := PutSms(buffer, origImsi, origMsisdn, requestNum);
      LengthSent(requestNum, requestType, SmsAttrs(TestSms(origImsi, origMsisdn)));
    } else if requestType == QUOTA_REQ || requestType == CALL_FINISH_INFO {
      len := PutCamel(buffer, requestType, origImsi, origMsisdn != [], calling, requestNum);
      LengthSent(requestNum, requestType, CamelAttrs(TestQuota(origImsi, calling), origMsisdn != []));
      if requestType == CALL_FINISH_INFO {
        len := PutNumber(buffer, CAMEL_TOTAL_DURATION, TEST_DURATION, 4, requestNum, requestType,
                         CamelAttrs(TestQuota(origImsi, calling), origMsisdn != []));
        LengthSent(requestNum, requestType, FinishAttrs(TestQuota(origImsi, calling), origMsisdn != [], TEST_DURATION));
      }
    }
    datagram := if len <= buffer.Length then buffer[..len] else [];
  }

  lemma LengthSent(num: uint32, kind: uint16, attrs: seq<Attr>)
    ensures SentLength(num, kind, attrs)
         == if SentLength(num, kind, attrs) > 0 then |Build(num, kind, Kept(attrs))| else 0
  {
    hide Build, HasRoom, Kept;
  }

  /** With an MSISDN of at most 900 bytes everything has room and the whole packet is sent. */
  lemma ComposedWhole(requestType: uint16, imsi: uint64, msisdn: seq<byte>, calling: uint64, num: uint32)
    requires |msisdn| <= 900
    ensures var attrs := TestAttrs(requestType, imsi, msisdn, calling);
            Fits(attrs) && SentBytes(num, requestType, attrs) == Build(num, requestType, attrs)
  {
    var attrs := TestAttrs(requestType, imsi, msisdn, calling);
    TestAttrsSize(requestType, imsi, msisdn, calling);
    hide TestAttrs, AttrsBytes, Build, SentBytes;
    WholeSent(num, requestType, attrs);
  }

  /** What the server makes of the test requests: the destination, the numbers and texts of the menu. */
  lemma TestRequestsMean(imsi: uint64, msisdn: seq<byte>, calling: uint64, m: AttrMap)
    ensures IsView(TestAttrs(0x1100, imsi, msisdn, calling), m) && msisdn != [] ==>
              Classify(0x1100, m) == Accepted(Sms(imsi, msisdn, Octets("79506650600"), 145, 145, 1000, 3, 1,
                                                  Octets("79506656021")))
    ensures IsView(TestAttrs(0x1200, imsi, msisdn, calling), m) && msisdn != [] ==>
              Classify(0x1200, m) == Accepted(Camel(imsi, calling, 1, 79506650600, 1, 123000123, 12, 2))
    ensures IsView(TestAttrs(0x1202, imsi, msisdn, calling), m) ==>
              Classify(0x1202, m) == Accepted(Finish(imsi, 123000123, 12, 6340))
  {
    hide Classify, IsView, SmsAttrs, CamelAttrs, FinishAttrs, Octets;
    if IsView(SmsAttrs(TestSms(imsi, msisdn)), m) {
      SmsClassified(TestSms(imsi, msisdn), m);
    }
    if IsView(CamelAttrs(TestQuota(imsi, calling), true), m) {
      CamelClassified(TestQuota(imsi, calling), m);
    }
    if IsView(FinishAttrs(TestQuota(imsi, calling), msisdn != [], TEST_DURATION), m) {
      FinishClassified(TestQuota(imsi, calling), msisdn != [], TEST_DURATION, m);
    }
  }

  lemma AppendSize(attrs: seq<Attr>, a: Attr)
    ensures |AttrsBytes(attrs + [a])| == |AttrsBytes(attrs)| + ATTR_HEADER_SIZE + |a.data|
  {
    AttrsBytesAppend(attrs, a);
  }

  /** The size of small attributes appended one by one. */
  lemma {:induction false} AppendedSize(attrs: seq<Attr>, more: seq<Attr>)
    requires forall i :: 0 <= i < |more| ==> |more[i].data| <= 8
    ensures |AttrsBytes(attrs + more)| <= |AttrsBytes(attrs)| + 12 * |more|
  {
    hide AttrsBytes;
    if more == [] {
      assert attrs + more == attrs;
    } else {
      var last := |more| - 1;
      AppendedSize(attrs, more[..last]);
      AppendSize(attrs + more[..last], more[last]);
      assert attrs + more == attrs + more[..last] + [more[last]];
    }
  }

  lemma TestAttrsSize(requestType: uint16, imsi: uint64, msisdn: seq<byte>, calling: uint64)
    requires |msisdn| <= 900
    ensures var attrs := TestAttrs(requestType, imsi, msisdn, calling);
            attrs != [] && HEADER_SIZE + |AttrsBytes(attrs)| <= BUFFER_SIZE
  {
    var attrs := TestAttrs(requestType, imsi, msisdn, calling);
    hide AttrsBytes, BigEndian;
    if requestType == VALIDATEEX_REQ {
      var front := SmsFront(imsi, msisdn);
      var imsiAttr := if imsi != 0 then [Number(VLD_IMSI, imsi, 8)] else [];
      SmsAppended(imsi, msisdn);
      NoAttrsSize();
      AppendedSize([], imsiAttr);
      assert [] + imsiAttr == imsiAttr;
      if msisdn != [] {
        AppendSize(imsiAttr, Attr(VLD_OA, msisdn));
      }
      assert front == if msisdn != [] then imsiAttr + [Attr(VLD_OA, msisdn)] else imsiAttr;
      var a1 := front + [Attr(VLD_DA, DESTINATION)];
      AppendSize(front, Attr(VLD_DA, DESTINATION));
      var a2 := a1 + [Number(VLD_OAFLAGS, 145, 1)];
      AppendSize(a1, Number(VLD_OAFLAGS, 145, 1));
      var a3 := a2 + [Number(VLD_DAFLAGS, 145, 1)];
      AppendSize(a2, Number(VLD_DAFLAGS, 145, 1));
      var a4 := a3 + [Number(VLD_REFNUM, 1000, 2)];
      AppendSize(a3, Number(VLD_REFNUM, 1000, 2));
      var a5 := a4 + [Number(VLD_TOTAL, 3, 1)];
      AppendSize(a4, Number(VLD_TOTAL, 3, 1));
      var a6 := a5 + [Number(VLD_PART, 1, 1)];
      AppendSize(a5, Number(VLD_PART, 1, 1));
      AppendSize(a6, Attr(VLD_SERVINGMSC, SERVING_MSC));
    } else {
      NoAttrsSize();
      AppendedSize([], attrs);
      assert [] + attrs == attrs;
    }
  }

  lemma NoAttrsSize()
    ensures |AttrsBytes([])| == 0
  {
  }

  // ---- the response decoder ----

  /**
   What the client reads from one attribute; `Overrun` when the attribute is shorter than what is read, or
   longer than the array it is copied into.
   */
  datatype Line =
    | ResultLine(code: int32)
    | DescrLine(text: seq<byte>)
    | QuotaLine(quota: int8)
    | ChunksLine(chunks: uint32)
    | DataLine(data: seq<byte>)
    | Overrun

  const DESCR_ARRAY := 1024

  /** The text strncpy leaves: what stands before the first zero. */
  function UpToZero(bs: seq<byte>): (r: seq<byte>)
    ensures r <= bs && 0 !in r && (|r| < |bs| ==> bs[|r|] == 0)
  {
    if bs == [] || bs[0] == 0 then [] else [bs[0]] + UpToZero(bs[1..])
  }

  function LineOf(responseKind: uint16, a: Attr): Line {
    if a.kind == PS_RESULT then
      if responseKind == VALIDATEEX_RESP then
        if |a.data| < 4 then Overrun else ResultLine(ToInt32(FromBigEndian(a.data[..4])))
      else if |a.data| < 1 then Overrun else ResultLine(ToInt8(a.data[0]))
    else if a.kind == PS_DESCR then if |a.data| < DESCR_ARRAY then DescrLine(UpToZero(a.data)) else Overrun
    else if a.kind == CAMEL_QUOTA_RESULT then if |a.data| < 1 then Overrun else QuotaLine(ToInt8(a.data[0]))
    else if a.kind == CAMEL_QUOTA_CHUNKS then
      if |a.data| < 4 then Overrun
      else
        Field32(a.data);
        ChunksLine(FromBigEndian(a.data[..4]))
    else DataLine(a.data)
  }

  function Lines(responseKind: uint16, attrs: seq<Attr>): (lines: seq<Line>)
    ensures |lines| == |attrs|
  {
    seq(|attrs|, i requires 0 <= i < |attrs| => LineOf(responseKind, attrs[i]))
  }

  /** The order a multimap is walked in: by type, and within a type as inserted. */
  function ByType(attrs: seq<Attr>): seq<Attr> {
    if attrs == [] then [] else Inserted(ByType(attrs[..|attrs| - 1]), attrs[|attrs| - 1])
  }

  function Inserted(sorted: seq<Attr>, a: Attr): seq<Attr> {
    if sorted == [] || sorted[|sorted| - 1].kind <= a.kind then sorted + [a]
    else Inserted(sorted[..|sorted| - 1], a) + [sorted[|sorted| - 1]]
  }

  predicate Sorted(attrs: seq<Attr>) {
    forall i, j :: 0 <= i < j < |attrs| ==> attrs[i].kind <= attrs[j].kind
  }

  lemma {:induction false} InsertedAdds(sorted: seq<Attr>, a: Attr)
    ensures multiset(Inserted(sorted, a)) == multiset(sorted) + multiset{a}
  {
    if sorted != [] && sorted[|sorted| - 1].kind > a.kind {
      var front, last := sorted[..|sorted| - 1], sorted[|sorted| - 1];
      assert sorted == front + [last];
      InsertedAdds(front, a);
    }
  }

  lemma {:induction false} InsertedSorts(sorted: seq<Attr>, a: Attr)
    requires Sorted(sorted)
    ensures Sorted(Inserted(sorted, a))
  {
    if sorted != [] && sorted[|sorted| - 1].kind > a.kind {
      var front, last := sorted[..|sorted| - 1], sorted[|sorted| - 1];
      InsertedSorts(front, a);
      InsertedAdds(front, a);
      forall i | 0 <= i < |Inserted(front, a)| ensures Inserted(front, a)[i].kind <= last.kind {
        var b := Inserted(front, a)[i];
        assert b in multiset(Inserted(front, a));
        assert b == a || b in front;
      }
    }
  }

  /** The same attributes, sorted; those already in order stay as they are. */
  lemma {:induction false} ByTypeSorts(attrs: seq<Attr>)
    ensures Sorted(ByType(attrs)) && multiset(ByType(attrs)) == multiset(attrs)
    ensures Sorted(attrs) ==> ByType(attrs) == attrs
  {
    if attrs != [] {
      var front, last := attrs[..|attrs| - 1], attrs[|attrs| - 1];
      assert attrs == front + [last];
      ByTypeSorts(front);
      InsertedSorts(ByType(front), last);
      InsertedAdds(ByType(front), last);
    }
  }

  lemma LinesAt(responseKind: uint16, attrs: seq<Attr>, i: nat)
    requires i < |attrs|
    ensures Lines(responseKind, attrs)[..i + 1] == Lines(responseKind, attrs)[..i] + [LineOf(responseKind, attrs[i])]
  {
    hide LineOf;
  }

  method ParseNextResponseFromBuffer(buffer: seq<byte>) returns (len: int, lines: seq<Line>)
    ensures match Parse(buffer)
            case None => len == -1 && lines == []
            case Some(p) =>
              len == p.len
              && lines == if p.kind == VALIDATEEX_RESP || p.kind == QUOTA_RESP
                          then Lines(p.kind, ByType(p.attrs)) else []
  {
    hide *;
    lines := [];
    var parsed := Parse(buffer);
    if parsed.None? {
      return -1, [];
    }
    var p := parsed.value;
    if p.kind == VALIDATEEX_RESP || p.kind == QUOTA_RESP {
      var mmRequest := ByType(p.attrs);
      for i := 0 to |mmRequest|
        invariant lines == Lines(p.kind, mmRequest)[..i]
      {
        LinesAt(p.kind, mmRequest, i);
        lines := lines + [LineOf(p.kind, mmRequest[i])];
      }
    }
    len := p.len;
  }

  /** A printable description comes back whole, if it is short enough for the client's array. */
  lemma DescrRead(responseKind: uint16, descr: string)
    requires Printable(descr)
    ensures LineOf(responseKind, Attr(PS_DESCR, Octets(descr)))
         == if |descr| < 1024 then DescrLine(Octets(descr)) else Overrun
  {
    var bs := Octets(descr);
    assert forall i :: 0 <= i < |bs| ==> bs[i] == descr[i] as int % 256 != 0;
  }

  lemma Int32Read(v: int)
    ensures FromBigEndian(Int32Bytes(v)) == v % 0x1_0000_0000 && |Int32Bytes(v)| == 4
  {
    Widths();
    BigEndianRoundTrip(v % 0x1_0000_0000, 4);
  }

  /** What became of the request, as a client is to see it. */
  function Reported(q: Request): seq<Line> {
    if q.params.Finish? then []
    else if q.params.Camel? && q.resultCode == OPERATION_SUCCESS then
      [ResultLine(q.resultCode), QuotaLine(q.out.quotaResult)]
      + if q.out.quotaChunks > 0 then [ChunksLine(q.out.quotaChunks % 0x1_0000_0000)] else []
    else [ResultLine(q.resultCode)]
  }

  /** Responses list their attributes in the order of their types. */
  lemma ResponseInOrder(q: Request)
    requires q.resultDescr == ""
    ensures ByType(ResponseAttrs(q)) == ResponseAttrs(q)
  {
    ByTypeSorts(ResponseAttrs(q));
    hide ByType;
  }

  /**
   The decoder recovers what a worker put into a response: the signed result, and for a successful quota
   request the quota result and, if positive, the number of chunks modulo 2^32.
   */
  lemma ResponseRoundTrip(q: Request)
    requires q.resultDescr == ""
    ensures Lines(ResponseKind(q.params), ByType(ResponseAttrs(q))) == Reported(q)
  {
    hide *;
    ResponseInOrder(q);
    LinesRead(q);
  }

  lemma LinesRead(q: Request)
    requires q.resultDescr == ""
    ensures Lines(ResponseKind(q.params), ResponseAttrs(q)) == Reported(q)
  {
    Int32Read(q.resultCode);
    Int32Read(q.out.quotaChunks);
    assert Int32Bytes(q.resultCode)[..4] == Int32Bytes(q.resultCode);
    assert Int32Bytes(q.out.quotaChunks)[..4] == Int32Bytes(q.out.quotaChunks);
    SignedByte(q.resultCode);
    SignedByte(q.out.quotaResult);
    SignedWord(q.resultCode);
    hide Int32Bytes, ToInt8, ToInt32, FromBigEndian;
  }

  lemma SignedByte(v: int8)
    ensures ToInt8(v % 256) == v
  {
  }

  lemma SignedWord(v: int32)
    ensures ToInt32(v % 0x1_0000_0000) == v
  {
  }
}
