/** The CAMEL call quota request (CamelRequest.h, .cpp). */
module CamelRequests {
  import opened Bytes
  import opened Text
  import opened PsPacket
  import opened ClientRequests
  import opened Requests
  import opened Acceptance
  import opened RequestMeanings
  import opened Avro
  import CallCdrs

  const ALLOW_CALL_AND_REQUEST_AGAIN: int8 := 0
  const ALLOW_CALL_AND_DROP_AFTER_QUOTA: int8 := 1

  class CamelRequest {
    const clientAddr: Addr
    var requestNum: uint32
    const accepted: int64
    var resultCode: int8
    var resultDescr: string
    const kafkaTopic: string
    var imsi: uint64
    var callingPartyNumber: uint64
    var callingNatureOfAddress: int16
    var calledPartyNumber: uint64
    var calledNatureOfAddress: int16
    var callReferenceNumber: uint64
    var eventType: int16
    var serviceKey: int16
    var quotaResult: int8
    var quotaChunks: int64

    function View(): Request
      reads this
    {
      Request(clientAddr, requestNum, accepted, resultCode, resultDescr,
              Camel(imsi, callingPartyNumber, callingNatureOfAddress, calledPartyNumber, calledNatureOfAddress,
                    callReferenceNumber, eventType, serviceKey),
              Outputs(quotaResult, quotaChunks, 0, 0, 0, 0))
    }

    constructor (senderAddr: Addr, topic: string, now: int64)
      ensures View().addr == senderAddr && View().accepted == now
      ensures View().resultCode == RESULT_CODE_UNKNOWN == -12 && View().resultDescr == ""
      ensures kafkaTopic == topic
    {
      clientAddr, accepted, kafkaTopic := senderAddr, now, topic;
      resultCode, resultDescr := RESULT_CODE_UNKNOWN, "";
    }

    /** The first 5 checks of `ValidateAndSetParams`. */
    method SetParties(attrs: AttrMap, errorDescr0: string) returns (ok: bool, errorDescr: string)
      modifies `imsi, `callingPartyNumber, `callingNatureOfAddress, `calledPartyNumber, `calledNatureOfAddress
      ensures ok ==> FirstError(CAMEL_ROWS, attrs, 0) == FirstError(CAMEL_ROWS, attrs, 5)
      ensures ok ==> imsi == NumberOf(attrs, CAMEL_IMSI, UInt64)
      ensures ok ==> callingPartyNumber == NumberOf(attrs, CAMEL_CALLING_PARTY, UInt64)
      ensures ok ==> callingNatureOfAddress == NumberOf(attrs, CAMEL_CALLING_NOA, Int16)
      ensures ok ==> calledPartyNumber == NumberOf(attrs, CAMEL_CALLED_PARTY, UInt64)
      ensures ok ==> calledNatureOfAddress == NumberOf(attrs, CAMEL_CALLED_NOA, Int16)
      ensures !ok ==> FirstError(CAMEL_ROWS, attrs, 0) == Some(errorDescr)
    {
      hide NumberOf, RowError;
      errorDescr := errorDescr0;
      var v;
      ok, v, errorDescr := SetRequiredIntParam(attrs, CAMEL_IMSI, "IMSI", UInt64, imsi, errorDescr);
      if !ok { return; }
      imsi := v;
      assert FirstError(CAMEL_ROWS, attrs, 0) == FirstError(CAMEL_ROWS, attrs, 1);
      ok, v, errorDescr := SetRequiredIntParam(attrs, CAMEL_CALLING_PARTY, "Calling Party Number",
                                               UInt64, callingPartyNumber, errorDescr);
      if !ok { return; }
      callingPartyNumber := v;
      assert FirstError(CAMEL_ROWS, attrs, 0) == FirstError(CAMEL_ROWS, attrs, 2);
      ok, v, errorDescr := SetRequiredIntParam(attrs, CAMEL_CALLING_NOA, "Calling Party Number Nature Of Address",
                                               Int16, callingNatureOfAddress, errorDescr);
      if !ok { return; }
      callingNatureOfAddress := v;
      assert FirstError(CAMEL_ROWS, attrs, 0) == FirstError(CAMEL_ROWS, attrs, 3);
      ok, v, errorDescr := SetRequiredIntParam(attrs, CAMEL_CALLED_PARTY, "Called Party Number",
                                               UInt64, calledPartyNumber, errorDescr);
      if !ok { return; }
      calledPartyNumber := v;
      assert FirstError(CAMEL_ROWS, attrs, 0) == FirstError(CAMEL_ROWS, attrs, 4);
      ok, v, errorDescr := SetRequiredIntParam(attrs, CAMEL_CALLED_NOA, "Called Party Number Nature Of Address",
                                               Int16, calledNatureOfAddress, errorDescr);
      if !ok { return; }
      calledNatureOfAddress := v;
      assert FirstError(CAMEL_ROWS, attrs, 0) == FirstError(CAMEL_ROWS, attrs, 5);
    }

    method ValidateAndSetParams(reqNum: uint32, attrs: AttrMap, errorDescr0: string)
      returns (ok: bool, errorDescr: string)
      modifies `requestNum, `imsi, `callingPartyNumber, `callingNatureOfAddress, `calledPartyNumber,
               `calledNatureOfAddress, `callReferenceNumber, `eventType, `serviceKey
      ensures requestNum == reqNum
      ensures match ValidateCamel(attrs)
              case Success(p) => ok && View().params == p
              case Failure(e) => !ok && errorDescr == e
      ensures ok <==> CompleteQuota(attrs)
      ensures ok ==> QuotaHolds(View().params, attrs)
      ensures !ok ==> QuotaFault(attrs) == Some(errorDescr)
    {
      QuotaValidated(attrs);
      hide NumberOf, RowError, CompleteQuota, QuotaHolds, QuotaFault;
      requestNum := reqNum;
      ok, errorDescr := SetParties(attrs, errorDescr0);
      if !ok { return; }
      var v;
      ok, v, errorDescr := SetRequiredIntParam(attrs, CAMEL_CALL_REF_NUM, "Call Reference Number",
                                               UInt64, callReferenceNumber, errorDescr);
      if !ok { return; }
      callReferenceNumber := v;
      assert FirstError(CAMEL_ROWS, attrs, 5) == FirstError(CAMEL_ROWS, attrs, 6);
      ok, v, errorDescr := SetRequiredIntParam(attrs, CAMEL_EVENT_TYPE, "Event type", Int16, eventType, errorDescr);
      if !ok { return; }
      eventType := v;
      assert FirstError(CAMEL_ROWS, attrs, 5) == FirstError(CAMEL_ROWS, attrs, 7);
      ok, v, errorDescr := SetRequiredIntParam(attrs, CAMEL_SERVICE_KEY, "Service key", Int16, serviceKey, errorDescr);
      if !ok { return; }
      serviceKey := v;
      assert FirstError(CAMEL_ROWS, attrs, 5) == FirstError(CAMEL_ROWS, attrs, 8);
    }

    /** The assignments behind the stored procedure's answer. */
    method Process(db: DbReply)
      modifies this
      ensures View() == Processed(old(View()), db)
      ensures CallResult(old(View()), db, View())
    {
      ghost var before := View();
      quotaChunks := db.chunks;
      resultCode := ToInt8(db.success);
      quotaResult := ToInt8(db.quota);
      ProcessedMeans(before, db, View());
    }

    /** `sendOk` is whether the socket accepts the datagram. */
    method SendResultToClient(socket: UdpSocket, sendOk: bool) returns (ok: bool, errorDescr: string)
      modifies socket
      ensures ok <==> sendOk && ResponseFits(View())
      ensures ok <==> sendOk && |ResponseBytes(View())| <= 2014
      ensures socket.attempts == old(socket.attempts) + [Datagram(clientAddr, Sendable(View()))]
    {
      var buffer := new byte[RESPONSE_BUFFER](_ => 0);
      var res := Init(buffer, requestNum, QUOTA_RESP);
      if res != 0 {
        return false, "PSPacket init failed";
      }
      ghost var sent := [Attr(PS_RESULT, [resultCode % 256])];
      AttrsLength1(sent[0]);
      assert [] + sent == sent;
      var len := AddAttr(buffer, PS_RESULT, [resultCode % 256], requestNum, QUOTA_RESP, []);
      if resultCode == OPERATION_SUCCESS {
        ghost var quota := Attr(CAMEL_QUOTA_RESULT, [quotaResult % 256]);
        AttrsLength2(sent[0], quota);
        assert sent + [quota] == [sent[0], quota];
        assert quotaChunks <= 0 ==> sent + [quota] == ResponseAttrs(View());
        len := AddAttr(buffer, CAMEL_QUOTA_RESULT, [quotaResult % 256], requestNum, QUOTA_RESP, sent);
        if quotaChunks > 0 {
          var quotaChunksNO := Int32Bytes(quotaChunks);
          ghost var chunks := Attr(CAMEL_QUOTA_CHUNKS, quotaChunksNO);
          assert sent + [quota] + [chunks] == ResponseAttrs(View());
          len := AddAttr(buffer, CAMEL_QUOTA_CHUNKS, quotaChunksNO, requestNum, QUOTA_RESP, sent + [quota]);
        }
      } else if resultDescr != "" {
        assert sent + [Attr(PS_DESCR, Octets(resultDescr))] == ResponseAttrs(View());
        len := AddAttr(buffer, PS_DESCR, Octets(resultDescr), requestNum, QUOTA_RESP, sent);
      }
      socket.SendTo(clientAddr, buffer[..len]);
      ok := sendOk && len > 0;
      errorDescr := if ok then "" else "socket error";
    }

    method LogToKafka(responseSendSuccess: bool, producer: Producer)
      modifies producer
      ensures producer.messages == old(producer.messages) + (
                match KafkaRecord(View(), responseSendSuccess)
                case None => []
                case Some(c) => [(kafkaTopic, CdrBytes(c))])
      ensures !IsLogged(View()) ==> producer.messages == old(producer.messages)
      ensures IsLogged(View()) ==>
                exists c :: RecordOf(View(), responseSendSuccess, c)
                            && producer.messages == old(producer.messages) + [(kafkaTopic, CdrBytes(c))]
    {
      LoggedMeans(View(), responseSendSuccess);
      if resultCode != OPERATION_SUCCESS
         || quotaResult == ALLOW_CALL_AND_REQUEST_AGAIN || quotaResult == ALLOW_CALL_AND_DROP_AFTER_QUOTA {
        return;
      }
      var cdr := new CallCdrs.CallCdr();
      cdr.imsi := ToInt64(imsi);
      cdr.callingPartyNumber := ToInt64(callingPartyNumber);
      cdr.calledPartyNumber := ToInt64(calledPartyNumber);
      cdr.startTime := MillisOf(accepted);
      cdr.finishTime := MillisOf(accepted);
      cdr.totalDurationSeconds := 0;
      cdr.quotaResult := quotaResult;
      assert Some(CallMessage(cdr.View())) == KafkaRecord(View(), responseSendSuccess);
      RecordMeans(View(), responseSendSuccess, CallMessage(cdr.View()));
      hide KafkaRecord, IsLogged, RecordOf, CallCdrs.Encoded, MillisOf;
      var rawData := EncodeAvro(cdr);
      producer.Produce(kafkaTopic, rawData);
    }

    static method EncodeAvro(cdr: CallCdrs.CallCdr) returns (rawData: seq<byte>)
      ensures rawData == CallCdrs.Encoded(cdr.View())
    {
      var encoder := new Encoder();
      cdr.Encode(encoder);
      rawData := encoder.out;
    }
  }
}
