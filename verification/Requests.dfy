/**
 The requests as values: what a packet must contain to be accepted, what the database call leaves in a
 request, which packet answers it and which record it logs.
 */
module Requests {
  import opened Bytes
  import opened Text
  import opened PsPacket
  import opened ClientRequests
  import opened SmsCdrs
  import opened CallCdrs

  // ---- packet and attribute types ----

  const VALIDATEEX_REQ: uint16 := 0x1100
  const VALIDATEEX_RESP: uint16 := 0x1101
  const ARE_Y_ALIVE: uint16 := 0x0004
  const I_AM_ALIVE: uint16 := 0x0005
  const QUOTA_REQ: uint16 := 0x1200
  const QUOTA_RESP: uint16 := 0x1201
  const CALL_FINISH_INFO: uint16 := 0x1202
  const CALL_FINISH_ACK: uint16 := 0x1203

  const VLD_OA: uint16 := 0x1003
  const VLD_OAFLAGS: uint16 := 0x1004
  const VLD_DA: uint16 := 0x1005
  const VLD_DAFLAGS: uint16 := 0x1006
  const VLD_REFNUM: uint16 := 0x1007
  const VLD_TOTAL: uint16 := 0x1008
  const VLD_PART: uint16 := 0x1009
  const VLD_SERVINGMSC: uint16 := 0x100A
  const VLD_IMSI: uint16 := 0x100B

  const CAMEL_IMSI: uint16 := 0x0001
  const CAMEL_CALLING_PARTY: uint16 := 0x0002
  const CAMEL_CALLING_NOA: uint16 := 0x0003
  const CAMEL_CALLED_PARTY: uint16 := 0x0004
  const CAMEL_CALLED_NOA: uint16 := 0x0005
  const CAMEL_CALL_REF_NUM: uint16 := 0x0006
  const CAMEL_EVENT_TYPE: uint16 := 0x0007
  const CAMEL_SERVICE_KEY: uint16 := 0x0008
  const CAMEL_TOTAL_DURATION: uint16 := 0x0009
  const CAMEL_QUOTA_RESULT: uint16 := 0x0002
  const CAMEL_QUOTA_CHUNKS: uint16 := 0x0003

  /** The response attributes whose numbers the packet library defines. */
  const PS_RESULT: uint16 := 0x0000
  const PS_DESCR: uint16 := 0x0001

  const OPERATION_SUCCESS: int8 := 0
  const BAD_REQUEST: int32 := -11
  const RESULT_CODE_UNKNOWN: int8 := -12
  const RESULT_CODE_DB_EXCEPTION: int8 := -100

  // ---- validation ----

  datatype Params =
    | Sms(imsi: uint64, oa: seq<byte>, da: seq<byte>, oaFlags: byte, daFlags: byte, refNum: uint16,
          total: byte, part: byte, msc: seq<byte>)
    | Camel(imsi: uint64, calling: uint64, callingNoa: int16, called: uint64, calledNoa: int16,
            callRef: uint64, camelEvent: int16, serviceKey: int16)
    | Finish(imsi: uint64, callRef: uint64, finishEvent: byte, duration: int64)

  const SMS_ROWS: seq<Row> := [
    OptionalRow(VLD_IMSI, "Origination IMSI", UInt64, 8),
    TextRow(VLD_OA, "Origination address"),
    TextRow(VLD_DA, "Destination address"),
    IntRow(VLD_OAFLAGS, "OAFLAGS", UInt8, 1),
    IntRow(VLD_DAFLAGS, "DAFLAGS", UInt8, 1),
    IntRow(VLD_REFNUM, "Reference number", UInt16, 2),
    IntRow(VLD_TOTAL, "Total", UInt8, 1),
    IntRow(VLD_PART, "Part number", UInt8, 1),
    TextRow(VLD_SERVINGMSC, "Serving MSC")]

  const CAMEL_ROWS: seq<Row> := [
    IntRow(CAMEL_IMSI, "IMSI", UInt64, 0),
    IntRow(CAMEL_CALLING_PARTY, "Calling Party Number", UInt64, 0),
    IntRow(CAMEL_CALLING_NOA, "Calling Party Number Nature Of Address", Int16, 0),
    IntRow(CAMEL_CALLED_PARTY, "Called Party Number", UInt64, 0),
    IntRow(CAMEL_CALLED_NOA, "Called Party Number Nature Of Address", Int16, 0),
    IntRow(CAMEL_CALL_REF_NUM, "Call Reference Number", UInt64, 0),
    IntRow(CAMEL_EVENT_TYPE, "Event type", Int16, 0),
    IntRow(CAMEL_SERVICE_KEY, "Service key", Int16, 0)]

  const FINISH_ROWS: seq<Row> := [
    IntRow(CAMEL_IMSI, "IMSI", UInt64, 0),
    IntRow(CAMEL_CALL_REF_NUM, "Call Reference Number", UInt64, 0),
    IntRow(CAMEL_EVENT_TYPE, "Event type", UInt8, 0),
    IntRow(CAMEL_TOTAL_DURATION, "Total duration (chunks)", Int64, 0)]

  function SmsParams(m: AttrMap): Params {
    Sms(NumberOf(m, VLD_IMSI, UInt64), TextOf(m, VLD_OA), TextOf(m, VLD_DA),
        NumberOf(m, VLD_OAFLAGS, UInt8), NumberOf(m, VLD_DAFLAGS, UInt8), NumberOf(m, VLD_REFNUM, UInt16),
        NumberOf(m, VLD_TOTAL, UInt8), NumberOf(m, VLD_PART, UInt8), TextOf(m, VLD_SERVINGMSC))
  }

  function CamelParams(m: AttrMap): Params {
    Camel(NumberOf(m, CAMEL_IMSI, UInt64), NumberOf(m, CAMEL_CALLING_PARTY, UInt64),
          NumberOf(m, CAMEL_CALLING_NOA, Int16), NumberOf(m, CAMEL_CALLED_PARTY, UInt64),
          NumberOf(m, CAMEL_CALLED_NOA, Int16), NumberOf(m, CAMEL_CALL_REF_NUM, UInt64),
          NumberOf(m, CAMEL_EVENT_TYPE, Int16), NumberOf(m, CAMEL_SERVICE_KEY, Int16))
  }

  function FinishParams(m: AttrMap): Params {
    Finish(NumberOf(m, CAMEL_IMSI, UInt64), NumberOf(m, CAMEL_CALL_REF_NUM, UInt64),
           NumberOf(m, CAMEL_EVENT_TYPE, UInt8), NumberOf(m, CAMEL_TOTAL_DURATION, Int64))
  }

  function Checked(rows: seq<Row>, m: AttrMap, params: Params): Result<Params, string> {
    match FirstError(rows, m, 0)
    case Some(e) => Failure(e)
    case None => Success(params)
  }

  function ValidateSms(m: AttrMap): Result<Params, string> { Checked(SMS_ROWS, m, SmsParams(m)) }

  function ValidateCamel(m: AttrMap): Result<Params, string> { Checked(CAMEL_ROWS, m, CamelParams(m)) }

  function ValidateFinish(m: AttrMap): Result<Params, string> { Checked(FINISH_ROWS, m, FinishParams(m)) }

  /** Accepted exactly when every required parameter is there in an acceptable size. */
  lemma AcceptedIff(rows: seq<Row>, m: AttrMap, params: Params)
    ensures Checked(rows, m, params).Success? <==> forall row :: row in rows ==> RowError(row, m).None?
  {
    NoErrorIff(rows, m, 0);
  }

  // ---- processing ----

  /** Fields the database call fills; unset before it. */
  datatype Outputs = Outputs(quotaResult: int8, quotaChunks: int64, calling: uint64, called: uint64,
                             startTime: int64, lastQuotaRes: int64)

  /** The values a stored procedure may return. */
  datatype DbReply = DbReply(imsi: uint64, result: int64, quota: int16, chunks: int64, success: int16,
                             startTime: int64, calling: uint64, called: uint64, lastQuotaRes: int64)

  /** Times are in nanoseconds. */
  datatype Request = Request(addr: Addr, num: uint32, accepted: int64, resultCode: int8, resultDescr: string,
                             params: Params, out: Outputs)

  function NewRequest(addr: Addr, num: uint32, accepted: int64, params: Params, unset: Outputs): Request {
    Request(addr, num, accepted, RESULT_CODE_UNKNOWN, "", params, unset)
  }

  /** A request after its `Process` returned. */
  function Processed(r: Request, db: DbReply): Request {
    match r.params
    case Sms(_, oa, da, oaFlags, daFlags, refNum, total, part, msc) =>
      r.(resultCode := ToInt8(db.result), params := Sms(db.imsi, oa, da, oaFlags, daFlags, refNum, total, part, msc))
    case Camel(_, _, _, _, _, _, _, _) =>
      r.(resultCode := ToInt8(db.success), out := r.out.(quotaResult := ToInt8(db.quota), quotaChunks := db.chunks))
    case Finish(_, _, _, _) =>
      r.(resultCode := OPERATION_SUCCESS,
         out := r.out.(calling := db.calling, called := db.called, startTime := db.startTime,
                       lastQuotaRes := db.lastQuotaRes))
  }

  /** What was asked: the parameters without the one field the database call overwrites. */
  function Asked(p: Params): Params {
    match p
    case Sms(_, oa, da, oaFlags, daFlags, refNum, total, part, msc) =>
      Sms(0, oa, da, oaFlags, daFlags, refNum, total, part, msc)
    case _ => p
  }

  // ---- responses ----

  function RequestKind(p: Params): uint16 {
    if p.Sms? then VALIDATEEX_REQ else if p.Camel? then QUOTA_REQ else CALL_FINISH_INFO
  }

  function ResponseKind(p: Params): uint16 {
    if p.Sms? then VALIDATEEX_RESP else if p.Camel? then QUOTA_RESP else CALL_FINISH_ACK
  }

  function Int32Bytes(v: int): seq<byte> { BigEndian(v % 0x1_0000_0000, 4) }

  function DescrAttrs(r: Request): seq<Attr> {
    if r.resultCode != OPERATION_SUCCESS && r.resultDescr != "" then [Attr(PS_DESCR, Octets(r.resultDescr))] else []
  }

  function QuotaAttrs(out: Outputs): seq<Attr> {
    [Attr(CAMEL_QUOTA_RESULT, [out.quotaResult % 256])]
    + if out.quotaChunks > 0 then [Attr(CAMEL_QUOTA_CHUNKS, Int32Bytes(out.quotaChunks))] else []
  }

  function ResponseAttrs(r: Request): seq<Attr> {
    if r.params.Sms? then [Attr(PS_RESULT, Int32Bytes(r.resultCode))] + DescrAttrs(r)
    else if r.params.Finish? then []
    else
      [Attr(PS_RESULT, [r.resultCode % 256])]
      + if r.resultCode == OPERATION_SUCCESS then QuotaAttrs(r.out) else DescrAttrs(r)
  }

  function ResponseBytes(r: Request): seq<byte> {
    Build(r.num, ResponseKind(r.params), ResponseAttrs(r))
  }

  const RESPONSE_BUFFER := 2014
  const ACK_BUFFER := 20

  /** The response fits the buffer `SendResultToClient` fills. */
  predicate ResponseFits(r: Request) {
    |ResponseBytes(r)| <= if r.params.Finish? then ACK_BUFFER else RESPONSE_BUFFER
  }

  /**
   What is handed to `sendto`: when the description has no room, the length to send is 0, and a send of no
   bytes is taken for a failure.
   */
  function Sendable(r: Request): seq<byte> {
    if ResponseFits(r) then ResponseBytes(r) else []
  }

  lemma AttrsLength1(a: Attr)
    ensures |AttrsBytes([a])| == ATTR_HEADER_SIZE + |a.data|
  {
    assert AttrsBytes([a]) == AttrBytes(a) + AttrsBytes([]);
  }

  lemma AttrsLength2(a: Attr, b: Attr)
    ensures |AttrsBytes([a, b])| == 2 * ATTR_HEADER_SIZE + |a.data| + |b.data|
  {
    AttrsLength1(a);
    AttrsBytesAppend([a], b);
    assert [a] + [b] == [a, b];
  }

  lemma AttrsLength3(a: Attr, b: Attr, c: Attr)
    ensures |AttrsBytes([a, b, c])| == 3 * ATTR_HEADER_SIZE + |a.data| + |b.data| + |c.data|
  {
    AttrsLength2(a, b);
    AttrsBytesAppend([a, b], c);
    assert [a, b] + [c] == [a, b, c];
  }

  /** A response without a description is at most 26 bytes long, an acknowledgement exactly a header. */
  lemma PlainResponseFits(r: Request)
    requires r.resultDescr == ""
    ensures ResponseFits(r) && |ResponseBytes(r)| <= 26
    ensures r.params.Finish? ==> |ResponseBytes(r)| == HEADER_SIZE
  {
    var attrs := ResponseAttrs(r);
    if r.params.Sms? {
      AttrsLength1(attrs[0]);
      assert attrs == [attrs[0]];
    } else if r.params.Camel? {
      if |attrs| == 1 {
        AttrsLength1(attrs[0]);
        assert attrs == [attrs[0]];
      } else if |attrs| == 2 {
        AttrsLength2(attrs[0], attrs[1]);
        assert attrs == [attrs[0], attrs[1]];
      } else {
        AttrsLength3(attrs[0], attrs[1], attrs[2]);
        assert attrs == [attrs[0], attrs[1], attrs[2]];
      }
    }
  }

  // ---- the records ----

  datatype Cdr = SmsMessage(sms: SmsRecord) | CallMessage(call: CallRecord)

  function CdrBytes(c: Cdr): seq<byte> {
    match c
    case SmsMessage(r) => SmsCdrs.Encoded(r)
    case CallMessage(r) => CallCdrs.Encoded(r)
  }

  function TruncatedDiv(a: int, b: int): int
    requires b > 0
  {
    if a >= 0 then a / b else -((-a) / b)
  }

  /** system_clock::to_time_t of a time, in milliseconds. */
  function MillisOf(time: int64): int64 {
    TruncatedDiv(time, 1_000_000_000) * 1000
  }

  /** The record a request logs, if its class logs it at all. */
  function KafkaRecord(r: Request, sent: bool): Option<Cdr> {
    match r.params
    case Sms(imsi, oa, da, oaFlags, daFlags, refNum, total, part, msc) =>
      if imsi == 0 then None
      else Some(SmsMessage(SmsRecord(ToInt64(imsi), oa, da, oaFlags, daFlags, refNum, total, part, msc,
                                     MillisOf(r.accepted), r.resultCode, sent)))
    case Camel(imsi, calling, _, called, _, _, _, _) =>
      if r.resultCode != OPERATION_SUCCESS || r.out.quotaResult == 0 || r.out.quotaResult == 1 then None
      else Some(CallMessage(CallRecord(ToInt64(imsi), ToInt64(calling), ToInt64(called), MillisOf(r.accepted),
                                       MillisOf(r.accepted), 0, r.out.quotaResult)))
    case Finish(imsi, _, _, duration) =>
      Some(CallMessage(CallRecord(ToInt64(imsi), ToInt64(r.out.calling), ToInt64(r.out.called),
                                  ToInt64(r.out.startTime * 1000), MillisOf(r.accepted),
                                  ToInt32(TruncatedDiv(duration, 10)), ToInt32(r.out.lastQuotaRes))))
  }

  // ---- dispatch ----

  datatype Outcome = Alive | Rejected(descr: string) | Accepted(params: Params)

  predicate Supported(kind: uint16) {
    kind == VALIDATEEX_REQ || kind == ARE_Y_ALIVE || kind == QUOTA_REQ || kind == CALL_FINISH_INFO
  }

  function Validate(kind: uint16, m: AttrMap): Result<Params, string> {
    if kind == VALIDATEEX_REQ then ValidateSms(m)
    else if kind == QUOTA_REQ then ValidateCamel(m)
    else ValidateFinish(m)
  }

  /** What the server does with one packet. */
  function Classify(kind: uint16, m: AttrMap): Outcome {
    if !Supported(kind) then Rejected("Unsupported request type " + Decimal(kind))
    else if kind == ARE_Y_ALIVE then Alive
    else
      match Validate(kind, m)
      case Failure(e) => Rejected(e)
      case Success(p) => Accepted(p)
  }

  /** An accepted packet became a request of the class its type names. */
  lemma AcceptedKind(kind: uint16, m: AttrMap)
    requires Classify(kind, m).Accepted?
    ensures RequestKind(Classify(kind, m).params) == kind
  {
  }

  function RejectionAttrs(descr: string): seq<Attr> {
    [Attr(PS_RESULT, Int32Bytes(BAD_REQUEST)), Attr(PS_DESCR, Octets(descr))]
  }

  function RejectionBytes(num: uint32, descr: string): seq<byte> {
    Build(num, VALIDATEEX_RESP, RejectionAttrs(descr))
  }

  function AliveBytes(num: uint32): seq<byte> {
    Build(num, I_AM_ALIVE, [])
  }

  predicate SmallAttrs(m: AttrMap) {
    forall t :: t in m ==> |m[t]| < 0x1_0000
  }

  lemma RejectionTextLength(kind: uint16, m: AttrMap)
    requires SmallAttrs(m) && Classify(kind, m).Rejected?
    ensures |Classify(kind, m).descr| <= 200
  {
    if Supported(kind) {
      var rows := if kind == VALIDATEEX_REQ then SMS_ROWS else if kind == QUOTA_REQ then CAMEL_ROWS else FINISH_ROWS;
      var k := FirstErrorIsARowError(rows, m, 0);
      RowsAreShort(rows[k]);
      ErrorTextLength(rows[k], m);
    } else {
      Decimal16(kind);
    }
  }

  lemma RejectionTextPrintable(kind: uint16, m: AttrMap)
    requires Classify(kind, m).Rejected?
    ensures Printable(Classify(kind, m).descr)
  {
    UnsupportedPrintable(kind);
    hide Printable, RowError;
    if Supported(kind) {
      var rows := if kind == VALIDATEEX_REQ then SMS_ROWS else if kind == QUOTA_REQ then CAMEL_ROWS else FINISH_ROWS;
      var k := FirstErrorIsARowError(rows, m, 0);
      RowsArePrintable(rows[k]);
      ErrorTextPrintable(rows[k], m);
    }
  }

  lemma UnsupportedPrintable(kind: uint16)
    ensures Printable("Unsupported request type " + Decimal(kind))
  {
    DecimalPrintable(kind);
    hide Decimal;
  }

  /** A rejection fits its buffer, description and all. */
  lemma RejectionFits(num: uint32, descr: string)
    requires |descr| <= 200
    ensures |RejectionBytes(num, descr)| == 20 + |descr| <= 2014
  {
    AttrsLength2(RejectionAttrs(descr)[0], RejectionAttrs(descr)[1]);
  }

  lemma RowsArePrintable(row: Row)
    requires row in SMS_ROWS || row in CAMEL_ROWS || row in FINISH_ROWS
    ensures Printable(row.name)
  {
    SmsNamesPrintable();
    CamelNamesPrintable();
    hide Printable;
  }

  lemma SmsNamesPrintable()
    ensures forall i :: 0 <= i < |SMS_ROWS| ==> Printable(SMS_ROWS[i].name)
  {
    hide Printable;
    OriginationNames();
    DestinationNames();
    FlagNames();
  }

  lemma CamelNamesPrintable()
    ensures forall i :: 0 <= i < |CAMEL_ROWS| ==> Printable(CAMEL_ROWS[i].name)
    ensures forall i :: 0 <= i < |FINISH_ROWS| ==> Printable(FINISH_ROWS[i].name)
  {
    hide Printable;
    PartyNames();
    CallingNatureName();
    CalledNatureName();
    CallNames();
    DurationName();
  }

  lemma OriginationNames()
    ensures Printable("Origination IMSI") && Printable("Origination address")
  {
  }

  lemma DestinationNames()
    ensures Printable("Destination address") && Printable("Reference number")
  {
  }

  lemma FlagNames()
    ensures Printable("OAFLAGS") && Printable("DAFLAGS") && Printable("Total")
    ensures Printable("Part number") && Printable("Serving MSC")
  {
  }

  lemma PartyNames()
    ensures Printable("IMSI") && Printable("Calling Party Number") && Printable("Called Party Number")
  {
  }

  lemma CallingNatureName()
    ensures Printable("Calling Party Number Nature Of Address")
  {
  }

  lemma CalledNatureName()
    ensures Printable("Called Party Number Nature Of Address")
  {
  }

  lemma CallNames()
    ensures Printable("Call Reference Number") && Printable("Event type") && Printable("Service key")
  {
  }

  lemma DurationName()
    ensures Printable("Total duration (chunks)")
  {
  }

  lemma RowsAreShort(row: Row)
    requires row in SMS_ROWS || row in CAMEL_ROWS || row in FINISH_ROWS
    ensures |row.name| <= 64 && (!row.TextRow? ==> row.size < 0x1_0000)
  {
  }
}
