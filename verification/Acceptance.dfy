/**
 Which packets the server accepts, with every attribute number, size and text written out: the checks of
 `ValidateAndSetParams` one after another, and what an accepted request then holds.
 */
module Acceptance {
  import opened Bytes
  import opened Text
  import opened PsPacket
  import opened ClientRequests
  import opened Requests

  predicate Sized(m: AttrMap, kind: uint16, size: nat) { kind in m && |m[kind]| == size }

  /** A number in any width the server reads. */
  predicate AnyWidth(m: AttrMap, kind: uint16) {
    Sized(m, kind, 1) || Sized(m, kind, 2) || Sized(m, kind, 4) || Sized(m, kind, 8)
  }

  predicate CompleteSms(m: AttrMap) {
    && 0x1003 in m && 0x1005 in m && 0x100A in m
    && Sized(m, 0x1004, 1) && Sized(m, 0x1006, 1) && Sized(m, 0x1008, 1) && Sized(m, 0x1009, 1)
    && Sized(m, 0x1007, 2) && (0x100B in m ==> Sized(m, 0x100B, 8))
  }

  predicate CompleteQuota(m: AttrMap) {
    && AnyWidth(m, 1) && AnyWidth(m, 2) && AnyWidth(m, 3) && AnyWidth(m, 4)
    && AnyWidth(m, 5) && AnyWidth(m, 6) && AnyWidth(m, 7) && AnyWidth(m, 8)
  }

  predicate CompleteFinish(m: AttrMap) {
    AnyWidth(m, 1) && AnyWidth(m, 6) && AnyWidth(m, 7) && AnyWidth(m, 9)
  }

  // ---- the complaints, in the order of the checks ----

  function WrongSize(name: string, have: nat, need: string): string {
    name + " has incorrect size " + Decimal(have) + ". Its size must be " + need + " bytes."
  }

  function WidthFault(m: AttrMap, kind: uint16, name: string): Option<string> {
    if kind !in m then Some(name + " is missing in request")
    else if AnyWidth(m, kind) then None
    else Some("SetIntegerParam: unexpected integer size " + Decimal(|m[kind]|))
  }

  function SizeFault(m: AttrMap, kind: uint16, name: string, size: nat, written: string): Option<string> {
    if kind !in m then Some(name + " is missing in request")
    else if |m[kind]| == size then None
    else Some(WrongSize(name, |m[kind]|, written))
  }

  function TextFault(m: AttrMap, kind: uint16, name: string): Option<string> {
    if kind !in m then Some(name + " is missing in request") else None
  }

  function First(a: Option<string>, b: Option<string>): Option<string> { if a.Some? then a else b }

  function SmsFault(m: AttrMap): Option<string> {
    First(if 0x100B in m then SizeFault(m, 0x100B, "Origination IMSI", 8, "8") else None,
    First(TextFault(m, 0x1003, "Origination address"),
    First(TextFault(m, 0x1005, "Destination address"),
    First(SizeFault(m, 0x1004, "OAFLAGS", 1, "1"),
    First(SizeFault(m, 0x1006, "DAFLAGS", 1, "1"),
    First(SizeFault(m, 0x1007, "Reference number", 2, "2"),
    First(SizeFault(m, 0x1008, "Total", 1, "1"),
    First(SizeFault(m, 0x1009, "Part number", 1, "1"),
          TextFault(m, 0x100A, "Serving MSC")))))))))
  }

  function QuotaFault(m: AttrMap): Option<string> {
    First(WidthFault(m, 1, "IMSI"),
    First(WidthFault(m, 2, "Calling Party Number"),
    First(WidthFault(m, 3, "Calling Party Number Nature Of Address"),
    First(WidthFault(m, 4, "Called Party Number"),
    First(WidthFault(m, 5, "Called Party Number Nature Of Address"),
    First(WidthFault(m, 6, "Call Reference Number"),
    First(WidthFault(m, 7, "Event type"),
          WidthFault(m, 8, "Service key"))))))))
  }

  function FinishFault(m: AttrMap): Option<string> {
    First(WidthFault(m, 1, "IMSI"),
    First(WidthFault(m, 6, "Call Reference Number"),
    First(WidthFault(m, 7, "Event type"),
          WidthFault(m, 9, "Total duration (chunks)"))))
  }

  // ---- what an accepted request holds ----

  predicate SameModulo(a: int, b: int, m: nat)
    requires m > 0
  {
    (a - b) % m == 0
  }

  predicate SmsHolds(p: Params, m: AttrMap)
    requires CompleteSms(m)
  {
    && p.Sms? && p.oa == m[0x1003] && p.da == m[0x1005] && p.msc == m[0x100A]
    && p.oaFlags == m[0x1004][0] && p.daFlags == m[0x1006][0] && p.total == m[0x1008][0] && p.part == m[0x1009][0]
    && p.refNum == 0x100 * (m[0x1007][0] as int) + m[0x1007][1]
    && p.imsi == if 0x100B in m then FromBigEndian(m[0x100B]) else 0
  }

  predicate QuotaHolds(p: Params, m: AttrMap)
    requires CompleteQuota(m)
  {
    && p.Camel? && p.imsi == FromBigEndian(m[1]) && p.calling == FromBigEndian(m[2])
    && p.called == FromBigEndian(m[4]) && p.callRef == FromBigEndian(m[6])
    && SameModulo(p.callingNoa, FromBigEndian(m[3]), 0x1_0000)
    && SameModulo(p.calledNoa, FromBigEndian(m[5]), 0x1_0000)
    && SameModulo(p.camelEvent, FromBigEndian(m[7]), 0x1_0000)
    && SameModulo(p.serviceKey, FromBigEndian(m[8]), 0x1_0000)
  }

  predicate FinishHolds(p: Params, m: AttrMap)
    requires CompleteFinish(m)
  {
    && p.Finish? && p.imsi == FromBigEndian(m[1]) && p.callRef == FromBigEndian(m[6])
    && SameModulo(p.finishEvent, FromBigEndian(m[7]), 0x100)
    && SameModulo(p.duration, FromBigEndian(m[9]), 0x1_0000_0000_0000_0000)
  }

  // ---- row by row ----

  lemma WidthRow(m: AttrMap, kind: uint16, name: string, t: CInt)
    ensures RowError(IntRow(kind, name, t, 0), m) == WidthFault(m, kind, name)
  {
    hide Decimal;
  }

  lemma OneDigit(d: nat)
    requires d < 10
    ensures Decimal(d) == ["0123456789"[d]]
  {
  }

  lemma SizeRow(m: AttrMap, kind: uint16, name: string, t: CInt, size: nat, written: string)
    requires (size == 1 && written == "1") || (size == 2 && written == "2") || (size == 8 && written == "8")
    ensures RowError(IntRow(kind, name, t, size), m) == SizeFault(m, kind, name, size, written)
    ensures RowError(OptionalRow(kind, name, t, size), m)
         == if kind in m then SizeFault(m, kind, name, size, written) else None
  {
    OneDigit(size);
    hide Decimal;
  }

  lemma TextRowFault(m: AttrMap, kind: uint16, name: string)
    ensures RowError(TextRow(kind, name), m) == TextFault(m, kind, name)
  {
  }

  lemma NextRow(rows: seq<Row>, m: AttrMap, i: nat)
    requires i <= |rows|
    ensures i < |rows| ==> FirstError(rows, m, i) == First(RowError(rows[i], m), FirstError(rows, m, i + 1))
    ensures i == |rows| ==> FirstError(rows, m, i) == None
  {
    hide RowError;
  }

  lemma SmsRows(m: AttrMap)
    ensures FirstError(SMS_ROWS, m, 0) == SmsFault(m)
  {
    hide RowError, SizeFault, TextFault, FirstError;
    SizeRow(m, 0x100B, "Origination IMSI", UInt64, 8, "8");
    TextRowFault(m, 0x1003, "Origination address");
    TextRowFault(m, 0x1005, "Destination address");
    SizeRow(m, 0x1004, "OAFLAGS", UInt8, 1, "1");
    SizeRow(m, 0x1006, "DAFLAGS", UInt8, 1, "1");
    SizeRow(m, 0x1007, "Reference number", UInt16, 2, "2");
    SizeRow(m, 0x1008, "Total", UInt8, 1, "1");
    SizeRow(m, 0x1009, "Part number", UInt8, 1, "1");
    TextRowFault(m, 0x100A, "Serving MSC");
    NextRow(SMS_ROWS, m, 0);
    NextRow(SMS_ROWS, m, 1);
    NextRow(SMS_ROWS, m, 2);
    NextRow(SMS_ROWS, m, 3);
    NextRow(SMS_ROWS, m, 4);
    NextRow(SMS_ROWS, m, 5);
    NextRow(SMS_ROWS, m, 6);
    NextRow(SMS_ROWS, m, 7);
    NextRow(SMS_ROWS, m, 8);
    NextRow(SMS_ROWS, m, 9);
  }

  lemma CamelRows(m: AttrMap)
    ensures FirstError(CAMEL_ROWS, m, 0) == QuotaFault(m)
  {
    hide RowError, WidthFault, FirstError;
    WidthRow(m, 1, "IMSI", UInt64);
    WidthRow(m, 2, "Calling Party Number", UInt64);
    WidthRow(m, 3, "Calling Party Number Nature Of Address", Int16);
    WidthRow(m, 4, "Called Party Number", UInt64);
    WidthRow(m, 5, "Called Party Number Nature Of Address", Int16);
    WidthRow(m, 6, "Call Reference Number", UInt64);
    WidthRow(m, 7, "Event type", Int16);
    WidthRow(m, 8, "Service key", Int16);
    NextRow(CAMEL_ROWS, m, 0);
    NextRow(CAMEL_ROWS, m, 1);
    NextRow(CAMEL_ROWS, m, 2);
    NextRow(CAMEL_ROWS, m, 3);
    NextRow(CAMEL_ROWS, m, 4);
    NextRow(CAMEL_ROWS, m, 5);
    NextRow(CAMEL_ROWS, m, 6);
    NextRow(CAMEL_ROWS, m, 7);
    NextRow(CAMEL_ROWS, m, 8);
  }

  lemma FinishRows(m: AttrMap)
    ensures FirstError(FINISH_ROWS, m, 0) == FinishFault(m)
  {
    hide RowError, WidthFault, FirstError;
    WidthRow(m, 1, "IMSI", UInt64);
    WidthRow(m, 6, "Call Reference Number", UInt64);
    WidthRow(m, 7, "Event type", UInt8);
    WidthRow(m, 9, "Total duration (chunks)", Int64);
    NextRow(FINISH_ROWS, m, 0);
    NextRow(FINISH_ROWS, m, 1);
    NextRow(FINISH_ROWS, m, 2);
    NextRow(FINISH_ROWS, m, 3);
    NextRow(FINISH_ROWS, m, 4);
  }

  /** No fault exactly in a complete packet. */
  lemma SmsFaultless(m: AttrMap)
    ensures SmsFault(m).None? <==> CompleteSms(m)
  {
    hide WrongSize;
  }

  lemma QuotaFaultless(m: AttrMap)
    ensures QuotaFault(m).None? <==> CompleteQuota(m)
  {
    hide Decimal;
  }

  lemma FinishFaultless(m: AttrMap)
    ensures FinishFault(m).None? <==> CompleteFinish(m)
  {
    hide Decimal;
  }

  // ---- the values ----

  lemma Within(bs: seq<byte>)
    ensures |bs| == 1 || |bs| == 2 || |bs| == 4 || |bs| == 8 ==> FromBigEndian(bs) < 0x1_0000_0000_0000_0000
  {
    FromBigEndianRoundTrip(bs);
    Widths();
  }

  lemma Unsigned64(m: AttrMap, kind: uint16)
    requires AnyWidth(m, kind)
    ensures NumberOf(m, kind, UInt64) == FromBigEndian(m[kind])
  {
    Within(m[kind]);
    hide FromBigEndian;
  }

  lemma Signed16(m: AttrMap, kind: uint16)
    requires AnyWidth(m, kind)
    ensures SameModulo(NumberOf(m, kind, Int16), FromBigEndian(m[kind]), 0x1_0000)
  {
    hide FromBigEndian;
  }

  lemma Signed64(m: AttrMap, kind: uint16)
    requires AnyWidth(m, kind)
    ensures SameModulo(NumberOf(m, kind, Int64), FromBigEndian(m[kind]), 0x1_0000_0000_0000_0000)
  {
    hide FromBigEndian;
  }

  lemma Unsigned8(m: AttrMap, kind: uint16)
    requires AnyWidth(m, kind)
    ensures SameModulo(NumberOf(m, kind, UInt8), FromBigEndian(m[kind]), 0x100)
  {
    ReducedTo8(FromBigEndian(m[kind]));
    hide FromBigEndian;
  }

  lemma ReducedTo8(v: nat)
    ensures SameModulo(v % 0x100, v, 0x100)
  {
  }

  lemma OneByte(m: AttrMap, kind: uint16)
    requires Sized(m, kind, 1)
    ensures NumberOf(m, kind, UInt8) == m[kind][0]
  {
    NetworkOrder(m[kind]);
    hide FromBigEndian;
  }

  lemma Unsigned16(m: AttrMap, kind: uint16)
    requires Sized(m, kind, 2)
    ensures NumberOf(m, kind, UInt16) == 0x100 * (m[kind][0] as int) + m[kind][1]
  {
    NetworkOrder(m[kind]);
    hide FromBigEndian;
  }

  lemma SmsValues(m: AttrMap)
    requires CompleteSms(m)
    ensures SmsHolds(SmsParams(m), m)
  {
    OneByte(m, 0x1004);
    OneByte(m, 0x1006);
    OneByte(m, 0x1008);
    OneByte(m, 0x1009);
    Unsigned16(m, 0x1007);
    if 0x100B in m { Unsigned64(m, 0x100B); } else { MissingIsDefault(m, 0x100B, UInt64); }
    hide NumberOf;
  }

  lemma QuotaValues(m: AttrMap)
    requires CompleteQuota(m)
    ensures QuotaHolds(CamelParams(m), m)
  {
    hide NumberOf, AnyWidth, SameModulo, FromBigEndian;
    Unsigned64(m, 1);
    Unsigned64(m, 2);
    Signed16(m, 3);
    Unsigned64(m, 4);
    Signed16(m, 5);
    Unsigned64(m, 6);
    Signed16(m, 7);
    Signed16(m, 8);
  }

  lemma FinishValues(m: AttrMap)
    requires CompleteFinish(m)
    ensures FinishHolds(FinishParams(m), m)
  {
    hide NumberOf, AnyWidth, SameModulo, FromBigEndian;
    Unsigned64(m, 1);
    Unsigned64(m, 6);
    Unsigned8(m, 7);
    Signed64(m, 9);
  }

  // ---- the verdicts ----

  lemma SmsValidated(m: AttrMap)
    ensures ValidateSms(m).Success? <==> CompleteSms(m)
    ensures CompleteSms(m) ==> SmsHolds(ValidateSms(m).value, m)
    ensures !CompleteSms(m) ==> SmsFault(m) == Some(ValidateSms(m).error)
  {
    SmsRows(m);
    SmsFaultless(m);
    if CompleteSms(m) { SmsValues(m); }
    hide FirstError, SmsFault, CompleteSms, SmsHolds, SmsParams;
  }

  /**
   An SMS request is accepted if and only if it is complete, and holds the values of its attributes;
   otherwise it is rejected with the text of the first check that fails.
   */
  lemma SmsVerdict(m: AttrMap)
    ensures Classify(0x1100, m).Accepted? <==> CompleteSms(m)
    ensures CompleteSms(m) ==> SmsHolds(Classify(0x1100, m).params, m)
    ensures !CompleteSms(m) ==> SmsFault(m).Some? && Classify(0x1100, m) == Rejected(SmsFault(m).value)
  {
    SmsValidated(m);
    hide ValidateSms, SmsFault, CompleteSms, SmsHolds;
  }

  lemma QuotaValidated(m: AttrMap)
    ensures ValidateCamel(m).Success? <==> CompleteQuota(m)
    ensures CompleteQuota(m) ==> QuotaHolds(ValidateCamel(m).value, m)
    ensures !CompleteQuota(m) ==> QuotaFault(m) == Some(ValidateCamel(m).error)
  {
    CamelRows(m);
    QuotaFaultless(m);
    if CompleteQuota(m) { QuotaValues(m); }
    hide FirstError, QuotaFault, CompleteQuota, QuotaHolds, CamelParams;
  }

  /** The same for a quota request. */
  lemma QuotaVerdict(m: AttrMap)
    ensures Classify(0x1200, m).Accepted? <==> CompleteQuota(m)
    ensures CompleteQuota(m) ==> QuotaHolds(Classify(0x1200, m).params, m)
    ensures !CompleteQuota(m) ==> QuotaFault(m).Some? && Classify(0x1200, m) == Rejected(QuotaFault(m).value)
  {
    QuotaValidated(m);
    hide ValidateCamel, QuotaFault, CompleteQuota, QuotaHolds;
  }

  lemma FinishValidated(m: AttrMap)
    ensures ValidateFinish(m).Success? <==> CompleteFinish(m)
    ensures CompleteFinish(m) ==> FinishHolds(ValidateFinish(m).value, m)
    ensures !CompleteFinish(m) ==> FinishFault(m) == Some(ValidateFinish(m).error)
  {
    FinishRows(m);
    FinishFaultless(m);
    if CompleteFinish(m) { FinishValues(m); }
    hide FirstError, FinishFault, CompleteFinish, FinishHolds, FinishParams;
  }

  /** And for a call finish notification. */
  lemma FinishVerdict(m: AttrMap)
    ensures Classify(0x1202, m).Accepted? <==> CompleteFinish(m)
    ensures CompleteFinish(m) ==> FinishHolds(Classify(0x1202, m).params, m)
    ensures !CompleteFinish(m) ==> FinishFault(m).Some? && Classify(0x1202, m) == Rejected(FinishFault(m).value)
  {
    FinishValidated(m);
    hide ValidateFinish, FinishFault, CompleteFinish, FinishHolds;
  }

  /** Probes are answered, and no other type is known. */
  lemma OtherVerdicts(kind: uint16, m: AttrMap)
    ensures Classify(kind, m).Alive? <==> kind == 0x0004
    ensures kind != 0x0004 && kind != 0x1100 && kind != 0x1200 && kind != 0x1202 ==>
              Classify(kind, m) == Rejected("Unsupported request type " + Decimal(kind))
  {
    hide Validate, Decimal;
  }

  /** A packet that lacks exactly one required attribute is rejected with that attribute's text. */
  lemma SmsOneMissing(m: AttrMap, kind: uint16, data: seq<byte>)
    requires kind !in m && CompleteSms(m[kind := data]) && !CompleteSms(m)
    ensures Classify(0x1100, m) == Rejected(
      (if kind == 0x1003 then "Origination address" else if kind == 0x1005 then "Destination address"
       else if kind == 0x1004 then "OAFLAGS" else if kind == 0x1006 then "DAFLAGS"
       else if kind == 0x1007 then "Reference number" else if kind == 0x1008 then "Total"
       else if kind == 0x1009 then "Part number" else "Serving MSC") + " is missing in request")
  {
    SmsVerdict(m);
    hide WrongSize, Classify;
  }

  lemma QuotaOneMissing(m: AttrMap, kind: uint16, data: seq<byte>)
    requires kind !in m && CompleteQuota(m[kind := data]) && !CompleteQuota(m)
    ensures Classify(0x1200, m) == Rejected(
      (if kind == 1 then "IMSI" else if kind == 2 then "Calling Party Number"
       else if kind == 3 then "Calling Party Number Nature Of Address" else if kind == 4 then "Called Party Number"
       else if kind == 5 then "Called Party Number Nature Of Address" else if kind == 6 then "Call Reference Number"
       else if kind == 7 then "Event type" else "Service key") + " is missing in request")
  {
    QuotaVerdict(m);
    OthersAsBefore(m, kind, data);
    hide Classify, AnyWidth;
  }

  lemma FinishOneMissing(m: AttrMap, kind: uint16, data: seq<byte>)
    requires kind !in m && CompleteFinish(m[kind := data]) && !CompleteFinish(m)
    ensures Classify(0x1202, m) == Rejected(
      (if kind == 1 then "IMSI" else if kind == 6 then "Call Reference Number"
       else if kind == 7 then "Event type" else "Total duration (chunks)") + " is missing in request")
  {
    FinishVerdict(m);
    OthersAsBefore(m, kind, data);
    hide Classify, AnyWidth;
  }

  lemma OthersAsBefore(m: AttrMap, kind: uint16, data: seq<byte>)
    ensures forall k: uint16 :: k != kind ==> (AnyWidth(m, k) <==> AnyWidth(m[kind := data], k))
    ensures forall k: uint16 :: AnyWidth(m, k) ==> k in m
  {
  }
}
