/** The call finish notification (CallFinishRequest.h, .cpp). */
module CallFinishRequests {
  import opened Bytes
  import opened PsPacket
  import opened ClientRequests
  import opened Requests
  import opened Acceptance
  import opened RequestMeanings
  import opened Avro
  import CallCdrs

  class CallFinishRequest {
    const clientAddr: Addr
    var requestNum: uint32
    const accepted: int64
    var resultCode: int8
    var resultDescr: string
    const kafkaTopic: string
    var imsi: uint64
    var callReferenceNumber: uint64
    var callingPartyNumber: uint64
    var calledPartyNumber: uint64
    var eventType: byte
    var totalDurationChunks: int64
    var callStartTime: int64
    var lastQuotaRes: int64

    function View(): Request
      reads this
    {
      Request(clientAddr, requestNum, accepted, resultCode, resultDescr,
              Finish(imsi, callReferenceNumber, eventType, totalDurationChunks),
              Outputs(0, 0, callingPartyNumber, calledPartyNumber, callStartTime, lastQuotaRes))
    }

    constructor (senderAddr: Addr, topic: string, now: int64)
      ensures View().addr == senderAddr && View().accepted == now
      ensures View().resultCode == RESULT_CODE_UNKNOWN == -12 && View().resultDescr == ""
      ensures kafkaTopic == topic
    {
      clientAddr, accepted, kafkaTopic := senderAddr, now, topic;
      resultCode, resultDescr := RESULT_CODE_UNKNOWN, "";
    }

    /** The first 2 checks of `ValidateAndSetParams`. */
    method SetCall(attrs: AttrMap, errorDescr0: string) returns (ok: bool, errorDescr: string)
      modifies `imsi, `callReferenceNumber
      ensures ok ==> FirstError(FINISH_ROWS, attrs, 0) == FirstError(FINISH_ROWS, attrs, 2)
      ensures ok ==> imsi == NumberOf(attrs, CAMEL_IMSI, UInt64)
      ensures ok ==> callReferenceNumber == NumberOf(attrs, CAMEL_CALL_REF_NUM, UInt64)
      ensures !ok ==> FirstError(FINISH_ROWS, attrs, 0) == Some(errorDescr)
    {
      hide NumberOf, RowError;
      errorDescr := errorDescr0;
      var v;
      ok, v, errorDescr := SetRequiredIntParam(attrs, CAMEL_IMSI, "IMSI", UInt64, imsi, errorDescr);
      if !ok { return; }
      imsi := v;
      assert FirstError(FINISH_ROWS, attrs, 0) == FirstError(FINISH_ROWS, attrs, 1);
      ok, v, errorDescr := SetRequiredIntParam(attrs, CAMEL_CALL_REF_NUM, "Call Reference Number",
                                               UInt64, callReferenceNumber, errorDescr);
      if !ok { return; }
      callReferenceNumber := v;
      assert FirstError(FINISH_ROWS, attrs, 0) == FirstError(FINISH_ROWS, attrs, 2);
    }

    method ValidateAndSetParams(reqNum: uint32, attrs: AttrMap, errorDescr0: string)
      returns (ok: bool, errorDescr: string)
      modifies `requestNum, `imsi, `callReferenceNumber, `eventType, `totalDurationChunks
      ensures requestNum == reqNum
      ensures match ValidateFinish(attrs)
              case Success(p) => ok && View().params == p
              case Failure(e) => !ok && errorDescr == e
      ensures ok <==> CompleteFinish(attrs)
      ensures ok ==> FinishHolds(View().params, attrs)
      ensures !ok ==> FinishFault(attrs) == Some(errorDescr)
    {
      FinishValidated(attrs);
      hide NumberOf, RowError, CompleteFinish, FinishHolds, FinishFault;
      requestNum := reqNum;
      ok, errorDescr := SetCall(attrs, errorDescr0);
      if !ok { return; }
      var v;
      ok, v, errorDescr := SetRequiredIntParam(attrs, CAMEL_EVENT_TYPE, "Event type", UInt8, eventType, errorDescr);
      if !ok { return; }
      eventType := v;
      assert FirstError(FINISH_ROWS, attrs, 2) == FirstError(FINISH_ROWS, attrs, 3);
      ok, v, errorDescr := SetRequiredIntParam(attrs, CAMEL_TOTAL_DURATION, "Total duration (chunks)",
                                               Int64, totalDurationChunks, errorDescr);
      if !ok { return; }
      totalDurationChunks := v;
      assert FirstError(FINISH_ROWS, attrs, 2) == FirstError(FINISH_ROWS, attrs, 4);
    }

    /** The assignments behind the stored procedure's answer. */
    method Process(db: DbReply)
      modifies this
      ensures View() == Processed(old(View()), db)
      ensures CallResult(old(View()), db, View())
    {
      ghost var before := View();
      callingPartyNumber := db.calling;
      calledPartyNumber := db.called;
      lastQuotaRes := db.lastQuotaRes;
      callStartTime := db.startTime;
      resultCode := OPERATION_SUCCESS;
      ProcessedMeans(before, db, View());
    }

    /** `sendOk` is whether the socket accepts the datagram. */
    method SendResultToClient(socket: UdpSocket, sendOk: bool) returns (ok: bool, errorDescr: string)
      modifies socket
      ensures ok <==> sendOk && ResponseFits(View())
      ensures ok <==> sendOk && |ResponseBytes(View())| <= 20
      ensures socket.attempts == old(socket.attempts) + [Datagram(clientAddr, Sendable(View()))]
    {
      var buffer := new byte[ACK_BUFFER](_ => 0);
      var res := Init(buffer, requestNum, CALL_FINISH_ACK);
      if res != 0 {
        return false, "PSPacket init failed";
      }
      var len := HEADER_SIZE;
      socket.SendTo(clientAddr, buffer[..len]);
      ok, errorDescr := sendOk, if sendOk then "" else "socket error";
    }

    method LogToKafka(responseSendSuccess: bool, producer: Producer)
      modifies producer
      ensures producer.messages == old(producer.messages) + (
                match KafkaRecord(View(), responseSendSuccess)
                case None => []
                case Some(c) => [(kafkaTopic, CdrBytes(c))])
      ensures !IsLogged(View()) ==> producer.messages == old(producer.messages)
      ensures IsLogged(View()) ==>
                exists c :: RecordOf(View(), responseSendSuccess, c)
                            && producer.messages == old(producer.messages) + [(kafkaTopic, CdrBytes(c))]
    {
      var cdr := new CallCdrs.CallCdr();
      cdr.imsi := ToInt64(imsi);
      cdr.callingPartyNumber := ToInt64(callingPartyNumber);
      cdr.calledPartyNumber := ToInt64(calledPartyNumber);
      cdr.startTime := ToInt64(callStartTime * 1000);
      cdr.finishTime := MillisOf(accepted);
      cdr.totalDurationSeconds := ToInt32(TruncatedDiv(totalDurationChunks, 10));
      cdr.quotaResult := ToInt32(lastQuotaRes);
      assert Some(CallMessage(cdr.View())) == KafkaRecord(View(), responseSendSuccess);
      RecordMeans(View(), responseSendSuccess, CallMessage(cdr.View()));
      hide KafkaRecord, RecordOf, CallCdrs.Encoded, MillisOf;
      var rawData := EncodeAvro(cdr);
      producer.Produce(kafkaTopic, rawData);
    }

    static method EncodeAvro(cdr: CallCdrs.CallCdr) returns (rawData: seq<byte>)
      ensures rawData == CallCdrs.Encoded(cdr.View())
    {
      var encoder := new Encoder();
      cdr.Encode(encoder);
      rawData := encoder.out;
    }
  }
}
