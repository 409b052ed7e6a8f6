/**
 What the database call leaves in a request, and what is logged about it, field by field and with every
 number written out. `Requests.Processed` and `Requests.KafkaRecord` are proved to say exactly this.
 */
module RequestMeanings {
  import opened Bytes
  import opened SmsCdrs
  import opened CallCdrs
  import opened ClientRequests
  import opened Requests
  import opened Acceptance

  // ---- the database call ----

  /** The outputs of the stored procedure are in their fields. */
  predicate HasOutputs(q: Request, db: DbReply) {
    match q.params
    case Sms(imsi, _, _, _, _, _, _, _, _) => SameModulo(q.resultCode, db.result, 0x100) && imsi == db.imsi
    case Camel(_, _, _, _, _, _, _, _) =>
      && SameModulo(q.resultCode, db.success, 0x100) && SameModulo(q.out.quotaResult, db.quota, 0x100)
      && q.out.quotaChunks == db.chunks
    case Finish(_, _, _, _) =>
      && q.resultCode == 0 && q.out.calling == db.calling && q.out.called == db.called
      && q.out.startTime == db.startTime && q.out.lastQuotaRes == db.lastQuotaRes
  }

  /** `after` is `q` with the outputs of the stored procedure, and nothing else changed. */
  predicate CallResult(q: Request, db: DbReply, after: Request) {
    && HasOutputs(after, db)
    && (after.addr, after.num, after.accepted, after.resultDescr) == (q.addr, q.num, q.accepted, q.resultDescr)
    && match q.params
       case Sms(_, oa, da, oaFlags, daFlags, refNum, total, part, msc) =>
         after.params == Sms(db.imsi, oa, da, oaFlags, daFlags, refNum, total, part, msc) && after.out == q.out
       case Camel(_, _, _, _, _, _, _, _) =>
         && after.params == q.params
         && (after.out.calling, after.out.called, after.out.startTime, after.out.lastQuotaRes)
            == (q.out.calling, q.out.called, q.out.startTime, q.out.lastQuotaRes)
       case Finish(_, _, _, _) =>
         && after.params == q.params
         && (after.out.quotaResult, after.out.quotaChunks) == (q.out.quotaResult, q.out.quotaChunks)
  }

  /** The conversion to one signed byte. */
  lemma OnlyInt8(v: int, r: int8)
    ensures SameModulo(r, v, 0x100) <==> r == ToInt8(v)
  {
  }

  lemma ProcessedMeans(q: Request, db: DbReply, after: Request)
    ensures CallResult(q, db, after) <==> after == Processed(q, db)
  {
    OnlyInt8(db.result, after.resultCode);
    OnlyInt8(db.success, after.resultCode);
    OnlyInt8(db.quota, after.out.quotaResult);
    hide SameModulo, ToInt8;
  }

  // ---- the record ----

  /** SMS requests with an IMSI, refused calls of successful quota requests, and finished calls. */
  predicate IsLogged(q: Request) {
    match q.params
    case Sms(imsi, _, _, _, _, _, _, _, _) => imsi != 0
    case Camel(_, _, _, _, _, _, _, _) => q.resultCode == 0 && q.out.quotaResult != 0 && q.out.quotaResult != 1
    case Finish(_, _, _, _) => true
  }

  /** Whole seconds of a time in nanoseconds, toward zero, in milliseconds. */
  predicate IsMillis(ms: int, time: int) {
    && ms % 1000 == 0
    && if time >= 0 then ms * 1_000_000 <= time < (ms + 1000) * 1_000_000
       else (ms - 1000) * 1_000_000 < time <= ms * 1_000_000
  }

  /** Tenths, toward zero. */
  predicate IsTenth(t: int, v: int) {
    if v >= 0 then 10 * t <= v < 10 * t + 10 else 10 * t - 10 < v <= 10 * t
  }

  ghost predicate TenthIn32Bits(r: int, v: int) {
    exists t: int :: IsTenth(t, v) && SameModulo(r, t, 0x1_0000_0000)
  }

  predicate SmsRecordOf(q: Request, sent: bool, c: SmsRecord)
    requires q.params.Sms?
  {
    && SameModulo(c.originationImsi, q.params.imsi, 0x1_0000_0000_0000_0000)
    && c.originationMsisdn == q.params.oa && c.destinationMsisdn == q.params.da && c.servingMSC == q.params.msc
    && c.oaflags == q.params.oaFlags && c.daflags == q.params.daFlags && c.referenceNum == q.params.refNum
    && c.totalParts == q.params.total && c.partNumber == q.params.part
    && IsMillis(c.validationTime, q.accepted)
    && c.validationRes == q.resultCode && c.responseSendSuccess == sent
  }

  predicate QuotaRecordOf(q: Request, c: CallRecord)
    requires q.params.Camel?
  {
    && SameModulo(c.imsi, q.params.imsi, 0x1_0000_0000_0000_0000)
    && SameModulo(c.callingPartyNumber, q.params.calling, 0x1_0000_0000_0000_0000)
    && SameModulo(c.calledPartyNumber, q.params.called, 0x1_0000_0000_0000_0000)
    && IsMillis(c.startTime, q.accepted) && IsMillis(c.finishTime, q.accepted)
    && c.totalDurationSeconds == 0 && c.quotaResult == q.out.quotaResult
  }

  ghost predicate FinishRecordOf(q: Request, c: CallRecord)
    requires q.params.Finish?
  {
    && SameModulo(c.imsi, q.params.imsi, 0x1_0000_0000_0000_0000)
    && SameModulo(c.callingPartyNumber, q.out.calling, 0x1_0000_0000_0000_0000)
    && SameModulo(c.calledPartyNumber, q.out.called, 0x1_0000_0000_0000_0000)
    && SameModulo(c.startTime, q.out.startTime * 1000, 0x1_0000_0000_0000_0000)
    && IsMillis(c.finishTime, q.accepted)
    && TenthIn32Bits(c.totalDurationSeconds, q.params.duration)
    && SameModulo(c.quotaResult, q.out.lastQuotaRes, 0x1_0000_0000)
  }

  ghost predicate RecordOf(q: Request, sent: bool, c: Cdr) {
    match q.params
    case Sms(_, _, _, _, _, _, _, _, _) => c.SmsMessage? && SmsRecordOf(q, sent, c.sms)
    case Camel(_, _, _, _, _, _, _, _) => c.CallMessage? && QuotaRecordOf(q, c.call)
    case Finish(_, _, _, _) => c.CallMessage? && FinishRecordOf(q, c.call)
  }

  lemma OnlyInt64(v: int, r: int64)
    ensures SameModulo(r, v, 0x1_0000_0000_0000_0000) <==> r == ToInt64(v)
  {
  }

  lemma OnlyInt32(v: int, r: int32)
    ensures SameModulo(r, v, 0x1_0000_0000) <==> r == ToInt32(v)
  {
  }

  lemma OnlyMillis(time: int64, ms: int64)
    ensures IsMillis(ms, time) <==> ms == MillisOf(time)
  {
  }

  lemma OnlyTenth(v: int, t: int)
    ensures IsTenth(t, v) <==> t == TruncatedDiv(v, 10)
  {
  }

  lemma OnlyTenthIn32Bits(v: int, r: int32)
    ensures TenthIn32Bits(r, v) <==> r == ToInt32(TruncatedDiv(v, 10))
  {
    var t := TruncatedDiv(v, 10);
    OnlyTenth(v, t);
    OnlyInt32(t, r);
    forall u: int | IsTenth(u, v) ensures u == t {
      OnlyTenth(v, u);
    }
    hide IsTenth, TruncatedDiv, SameModulo, ToInt32;
  }

  lemma SmsRecordMeans(q: Request, sent: bool, c: SmsRecord)
    requires q.params.Sms? && q.params.imsi != 0
    ensures SmsRecordOf(q, sent, c) <==> KafkaRecord(q, sent) == Some(SmsMessage(c))
  {
    OnlyInt64(q.params.imsi, c.originationImsi);
    OnlyMillis(q.accepted, c.validationTime);
    hide SameModulo, IsMillis, ToInt64, MillisOf;
  }

  lemma QuotaRecordMeans(q: Request, sent: bool, c: CallRecord)
    requires q.params.Camel? && IsLogged(q)
    ensures QuotaRecordOf(q, c) <==> KafkaRecord(q, sent) == Some(CallMessage(c))
  {
    OnlyInt64(q.params.imsi, c.imsi);
    OnlyInt64(q.params.calling, c.callingPartyNumber);
    OnlyInt64(q.params.called, c.calledPartyNumber);
    OnlyMillis(q.accepted, c.startTime);
    OnlyMillis(q.accepted, c.finishTime);
    hide SameModulo, IsMillis, ToInt64, MillisOf;
  }

  lemma FinishRecordMeans(q: Request, sent: bool, c: CallRecord)
    requires q.params.Finish?
    ensures FinishRecordOf(q, c) <==> KafkaRecord(q, sent) == Some(CallMessage(c))
  {
    OnlyInt64(q.params.imsi, c.imsi);
    OnlyInt64(q.out.calling, c.callingPartyNumber);
    OnlyInt64(q.out.called, c.calledPartyNumber);
    OnlyInt64(q.out.startTime * 1000, c.startTime);
    OnlyMillis(q.accepted, c.finishTime);
    OnlyTenthIn32Bits(q.params.duration, c.totalDurationSeconds);
    OnlyInt32(q.out.lastQuotaRes, c.quotaResult);
    hide SameModulo, IsMillis, TenthIn32Bits, ToInt64, ToInt32, MillisOf, TruncatedDiv;
  }

  lemma LoggedMeans(q: Request, sent: bool)
    ensures KafkaRecord(q, sent).Some? <==> IsLogged(q)
  {
  }

  /** A request is logged if and only if it is one of those, and the record is the one described. */
  lemma RecordMeans(q: Request, sent: bool, c: Cdr)
    ensures KafkaRecord(q, sent).Some? <==> IsLogged(q)
    ensures IsLogged(q) ==> (RecordOf(q, sent, c) <==> KafkaRecord(q, sent) == Some(c))
  {
    LoggedMeans(q, sent);
    if IsLogged(q) {
      hide SmsRecordOf, QuotaRecordOf, FinishRecordOf;
      match c {
        case SmsMessage(r) => if q.params.Sms? { SmsRecordMeans(q, sent, r); }
        case CallMessage(r) =>
          if q.params.Camel? { QuotaRecordMeans(q, sent, r); }
          else if q.params.Finish? { FinishRecordMeans(q, sent, r); }
      }
    }
  }
}
