/** A request object of any class, with the calls the server and the pool make through the base class. */
module RequestObjects {
  import opened ClientRequests
  import opened Requests
  import opened PoolModel
  import opened SmsRequests
  import opened CamelRequests
  import opened CallFinishRequests

  datatype RequestObject =
    | SmsObject(sms: SmsRequest)
    | CamelObject(camel: CamelRequest)
    | FinishObject(finish: CallFinishRequest)
  {
    function Ref(): object {
      match this
      case SmsObject(r) => r
      case CamelObject(r) => r
      case FinishObject(r) => r
    }

    function View(): Request
      reads Ref()
    {
      match this
      case SmsObject(r) => r.View()
      case CamelObject(r) => r.View()
      case FinishObject(r) => r.View()
    }

    function Topic(): string {
      match this
      case SmsObject(r) => r.kafkaTopic
      case CamelObject(r) => r.kafkaTopic
      case FinishObject(r) => r.kafkaTopic
    }

    method Process(db: DbReply)
      modifies Ref()
      ensures View() == Processed(old(View()), db)
    {
      hide Processed;
      match this
      case SmsObject(r) => r.Process(db);
      case CamelObject(r) => r.Process(db);
      case FinishObject(r) => r.Process(db);
    }

    /** The assignments of the handler of a database exception. */
    method RecordFailure(errorText: string)
      modifies Ref()
      ensures View() == FailedRequest(old(View()), errorText)
      ensures View() == old(View()).(resultDescr := "**** DB ERROR ****\n" + errorText, resultCode := -100)
    {
      var text := "**** DB ERROR ****\n" + errorText;
      match this
      case SmsObject(r) => r.resultDescr, r.resultCode := text, RESULT_CODE_DB_EXCEPTION;
      case CamelObject(r) => r.resultDescr, r.resultCode := text, RESULT_CODE_DB_EXCEPTION;
      case FinishObject(r) => r.resultDescr, r.resultCode := text, RESULT_CODE_DB_EXCEPTION;
    }

    method SendResultToClient(socket: UdpSocket, sendOk: bool) returns (ok: bool, errorDescr: string)
      modifies socket
      ensures ok <==> sendOk && ResponseFits(View())
      ensures socket.attempts == old(socket.attempts) + [Datagram(View().addr, Sendable(View()))]
    {
      hide Sendable, ResponseFits;
      match this
      case SmsObject(r) => ok, errorDescr := r.SendResultToClient(socket, sendOk);
      case CamelObject(r) => ok, errorDescr := r.SendResultToClient(socket, sendOk);
      case FinishObject(r) => ok, errorDescr := r.SendResultToClient(socket, sendOk);
    }

    method LogToKafka(responseSendSuccess: bool, producer: Producer)
      modifies producer
      ensures producer.messages == old(producer.messages) + (
                match KafkaRecord(View(), responseSendSuccess)
                case None => []
                case Some(c) => [(Topic(), CdrBytes(c))])
    {
      hide KafkaRecord, CdrBytes;
      match this
      case SmsObject(r) => r.LogToKafka(responseSendSuccess, producer);
      case CamelObject(r) => r.LogToKafka(responseSendSuccess, producer);
      case FinishObject(r) => r.LogToKafka(responseSendSuccess, producer);
    }
  }
}
