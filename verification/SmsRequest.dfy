/** The SMS validation request (SmsRequest.h, .cpp). */
module SmsRequests {
  import opened Bytes
  import opened Text
  import opened PsPacket
  import opened ClientRequests
  import opened Requests
  import opened Acceptance
  import opened RequestMeanings
  import opened Avro
  import SmsCdrs

  const ORIG_IMSI_NOT_GIVEN: uint64 := 0

  class SmsRequest {
    const clientAddr: Addr
    var requestNum: uint32
    const accepted: int64
    var resultCode: int8
    var resultDescr: string
    const kafkaTopic: string
    var originationImsi: uint64
    var originationMsisdn: seq<byte>
    var destinationMsisdn: seq<byte>
    var originationFlags: byte
    var destinationFlags: byte
    var referenceNum: uint16
    var partNum: byte
    var totalParts: byte
    var servingMSC: seq<byte>

    function View(): Request
      reads this
    {
      Request(clientAddr, requestNum, accepted, resultCode, resultDescr,
              Sms(originationImsi, originationMsisdn, destinationMsisdn, originationFlags, destinationFlags,
                  referenceNum, totalParts, partNum, servingMSC),
              Outputs(0, 0, 0, 0, 0, 0))
    }

    constructor (senderAddr: Addr, topic: string, now: int64)
      ensures View().addr == senderAddr && View().accepted == now
      ensures View().resultCode == RESULT_CODE_UNKNOWN == -12 && View().resultDescr == ""
      ensures kafkaTopic == topic
      ensures originationImsi == 0
    {
      clientAddr, accepted, kafkaTopic := senderAddr, now, topic;
      resultCode, resultDescr := RESULT_CODE_UNKNOWN, "";
      originationImsi := 0;
      originationMsisdn, destinationMsisdn, servingMSC := [], [], [];
    }

    /** The first 5 checks of `ValidateAndSetParams`. */
    method SetAddresses(attrs: AttrMap, errorDescr0: string) returns (ok: bool, errorDescr: string)
      modifies `originationImsi, `originationMsisdn, `destinationMsisdn, `originationFlags, `destinationFlags
      ensures ok ==> FirstError(SMS_ROWS, attrs, 0) == FirstError(SMS_ROWS, attrs, 5)
      ensures ok ==> originationImsi == NumberOf(attrs, VLD_IMSI, UInt64)
      ensures ok ==> originationMsisdn == TextOf(attrs, VLD_OA)
      ensures ok ==> destinationMsisdn == TextOf(attrs, VLD_DA)
      ensures ok ==> originationFlags == NumberOf(attrs, VLD_OAFLAGS, UInt8)
      ensures ok ==> destinationFlags == NumberOf(attrs, VLD_DAFLAGS, UInt8)
      ensures !ok ==> FirstError(SMS_ROWS, attrs, 0) == Some(errorDescr)
    {
      hide NumberOf, RowError;
      errorDescr := errorDescr0;
      MissingIsDefault(attrs, VLD_IMSI, UInt64);
      var v;
      ok, v, errorDescr := SetOptionalIntParam(attrs, VLD_IMSI, "Origination IMSI",
                                               UInt64, originationImsi, ORIG_IMSI_NOT_GIVEN, errorDescr, 8);
      if !ok { return; }
      originationImsi := v;
      assert FirstError(SMS_ROWS, attrs, 0) == FirstError(SMS_ROWS, attrs, 1);
      ok, originationMsisdn, errorDescr := SetStringParam(attrs, VLD_OA, "Origination address",
                                                          originationMsisdn, errorDescr);
      if !ok { return; }
      assert FirstError(SMS_ROWS, attrs, 0) == FirstError(SMS_ROWS, attrs, 2);
      ok, destinationMsisdn, errorDescr := SetStringParam(attrs, VLD_DA, "Destination address",
                                                          destinationMsisdn, errorDescr);
      if !ok { return; }
      assert FirstError(SMS_ROWS, attrs, 0) == FirstError(SMS_ROWS, attrs, 3);
      ok, v, errorDescr := SetRequiredIntParam(attrs, VLD_OAFLAGS, "OAFLAGS", UInt8, originationFlags, errorDescr, 1);
      if !ok { return; }
      originationFlags := v;
      assert FirstError(SMS_ROWS, attrs, 0) == FirstError(SMS_ROWS, attrs, 4);
      ok, v, errorDescr := SetRequiredIntParam(attrs, VLD_DAFLAGS, "DAFLAGS", UInt8, destinationFlags, errorDescr, 1);
      if !ok { return; }
      destinationFlags := v;
      assert FirstError(SMS_ROWS, attrs, 0) == FirstError(SMS_ROWS, attrs, 5);
    }

    /** The next 3. */
    method SetParts(attrs: AttrMap, errorDescr0: string) returns (ok: bool, errorDescr: string)
      modifies `referenceNum, `totalParts, `partNum
      ensures ok ==> FirstError(SMS_ROWS, attrs, 5) == FirstError(SMS_ROWS, attrs, 8)
      ensures ok ==> referenceNum == NumberOf(attrs, VLD_REFNUM, UInt16)
      ensures ok ==> totalParts == NumberOf(attrs, VLD_TOTAL, UInt8)
      ensures ok ==> partNum == NumberOf(attrs, VLD_PART, UInt8)
      ensures !ok ==> FirstError(SMS_ROWS, attrs, 5) == Some(errorDescr)
    {
      hide NumberOf, RowError;
      errorDescr := errorDescr0;
      var v;
      ok, v, errorDescr := SetRequiredIntParam(attrs, VLD_REFNUM, "Reference number",
                                               UInt16, referenceNum, errorDescr, 2);
      if !ok { return; }
      referenceNum := v;
      assert FirstError(SMS_ROWS, attrs, 5) == FirstError(SMS_ROWS, attrs, 6);
      ok, v, errorDescr := SetRequiredIntParam(attrs, VLD_TOTAL, "Total", UInt8, totalParts, errorDescr, 1);
      if !ok { return; }
      totalParts := v;
      assert FirstError(SMS_ROWS, attrs, 5) == FirstError(SMS_ROWS, attrs, 7);
      ok, v, errorDescr := SetRequiredIntParam(attrs, VLD_PART, "Part number", UInt8, partNum, errorDescr, 1);
      if !ok { return; }
      partNum := v;
      assert FirstError(SMS_ROWS, attrs, 5) == FirstError(SMS_ROWS, attrs, 8);
    }

    method ValidateAndSetParams(reqNum: uint32, attrs: AttrMap, errorDescr0: string)
      returns (ok: bool, errorDescr: string)
      modifies `requestNum, `originationImsi, `originationMsisdn, `destinationMsisdn, `originationFlags,
               `destinationFlags, `referenceNum, `totalParts, `partNum, `servingMSC
      ensures requestNum == reqNum
      ensures match ValidateSms(attrs)
              case Success(p) => ok && View().params == p
              case Failure(e) => !ok && errorDescr == e
      ensures ok <==> CompleteSms(attrs)
      ensures ok ==> SmsHolds(View().params, attrs)
      ensures !ok ==> SmsFault(attrs) == Some(errorDescr)
    {
      SmsValidated(attrs);
      hide NumberOf, RowError, CompleteSms, SmsHolds, SmsFault;
      requestNum := reqNum;
      ok, errorDescr := SetAddresses(attrs, errorDescr0);
      if !ok { return; }
      ok, errorDescr := SetParts(attrs, errorDescr);
      if !ok { return; }
      ok, servingMSC, errorDescr := SetStringParam(attrs, VLD_SERVINGMSC, "Serving MSC", servingMSC, errorDescr);
      if !ok { return; }
      assert FirstError(SMS_ROWS, attrs, 8) == FirstError(SMS_ROWS, attrs, 9);
    }

    /** The assignments behind the stored procedure's answer. */
    method Process(db: DbReply)
      modifies this
      ensures View() == Processed(old(View()), db)
      ensures CallResult(old(View()), db, View())
    {
      ghost var before := View();
      resultCode := ToInt8(db.result);
      originationImsi := db.imsi;
      ProcessedMeans(before, db, View());
    }

    /** `sendOk` is whether the socket accepts the datagram. */
    method SendResultToClient(socket: UdpSocket, sendOk: bool) returns (ok: bool, errorDescr: string)
      modifies socket
      ensures ok <==> sendOk && ResponseFits(View())
      ensures ok <==> sendOk && |ResponseBytes(View())| <= 2014
      ensures socket.attempts == old(socket.attempts) + [Datagram(clientAddr, Sendable(View()))]
    {
      var buffer := new byte[RESPONSE_BUFFER](_ => 0);
      var res := Init(buffer, requestNum, VALIDATEEX_RESP);
      if res != 0 {
        return false, "PSPacket init failed";
      }
      var resultCodeN := Int32Bytes(resultCode);
      ghost var sent := [Attr(PS_RESULT, resultCodeN)];
      AttrsLength1(sent[0]);
      assert [] + sent == sent;
      var len := AddAttr(buffer, PS_RESULT, resultCodeN, requestNum, VALIDATEEX_RESP, []);
      if resultCode != OPERATION_SUCCESS && resultDescr != "" {
        len := AddAttr(buffer, PS_DESCR, Octets(resultDescr), requestNum, VALIDATEEX_RESP, sent);
      }
      socket.SendTo(clientAddr, buffer[..len]);
      ok := sendOk && len > 0;
      errorDescr := if ok then "" else "socket error";
    }

    /** The record `LogToKafka` fills in. */
    method FilledCdr(responseSendSuccess: bool) returns (cdr: SmsCdrs.SmsCdr)
      requires originationImsi != ORIG_IMSI_NOT_GIVEN
      ensures fresh(cdr) && KafkaRecord(View(), responseSendSuccess) == Some(SmsMessage(cdr.View()))
    {
      ghost var record := KafkaRecord(View(), responseSendSuccess);
      assert record == Some(SmsMessage(SmsCdrs.SmsRecord(
        ToInt64(originationImsi), originationMsisdn, destinationMsisdn, originationFlags, destinationFlags,
        referenceNum, totalParts, partNum, servingMSC, MillisOf(accepted), resultCode, responseSendSuccess)));
      hide KafkaRecord, SmsRequest.View, MillisOf, ToInt64;
      cdr := new SmsCdrs.SmsCdr();
      cdr.originationImsi := ToInt64(originationImsi);
      cdr.originationMsisdn := originationMsisdn;
      cdr.destinationMsisdn := destinationMsisdn;
      cdr.oaflags := originationFlags;
      cdr.daflags := destinationFlags;
      cdr.referenceNum := referenceNum;
      cdr.totalParts := totalParts;
      cdr.partNumber := partNum;
      cdr.servingMSC := servingMSC;
      cdr.validationTime := MillisOf(accepted);
      cdr.validationRes := resultCode;
      cdr.responseSendSuccess := responseSendSuccess;
    }

    method LogToKafka(responseSendSuccess: bool, producer: Producer)
      modifies producer
      ensures producer.messages == old(producer.messages) + (
                match KafkaRecord(View(), responseSendSuccess)
                case None => []
                case Some(c) => [(kafkaTopic, CdrBytes(c))])
      ensures !IsLogged(View()) ==> producer.messages == old(producer.messages)
      ensures IsLogged(View()) ==>
                exists c :: RecordOf(View(), responseSendSuccess, c)
                            && producer.messages == old(producer.messages) + [(kafkaTopic, CdrBytes(c))]
    {
      LoggedMeans(View(), responseSendSuccess);
      if originationImsi == ORIG_IMSI_NOT_GIVEN {
        return;
      }
      var cdr := FilledCdr(responseSendSuccess);
      RecordMeans(View(), responseSendSuccess, SmsMessage(cdr.View()));
      hide SmsRequest.View, KafkaRecord, RecordOf, SmsCdrs.Encoded;
      var rawData := EncodeCdr(cdr);
      producer.Produce(kafkaTopic, rawData);
    }

    static method EncodeCdr(cdr: SmsCdrs.SmsCdr) returns (rawData: seq<byte>)
      ensures rawData == SmsCdrs.Encoded(cdr.View())
    {
      var encoder := new Encoder();
      cdr.Encode(encoder);
      rawData := encoder.out;
    }
  }
}
