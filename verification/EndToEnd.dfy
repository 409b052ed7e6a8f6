/** The pool and the test client together: what a client reads from the datagrams of a whole run. */
module EndToEnd {
  import opened Bytes
  import opened Text
  import opened PsPacket
  import opened ClientRequests
  import opened Requests
  import opened PoolModel
  import opened PoolOwnership
  import opened PoolHistory
  import opened PoolReplies
  import opened PoolSafety
  import opened PoolRecords
  import opened PoolArrivals
  import opened Acceptance
  import opened RequestMeanings
  import opened PoolCauses
  import opened Avro
  import SmsCdrs
  import CallCdrs
  import opened Tester

  /** What a client reads from a datagram; acknowledgements and alive replies have no attributes. */
  function Decoded(bs: seq<byte>): seq<Line> {
    match Parse(bs)
    case None => []
    case Some(p) => if p.kind == VALIDATEEX_RESP || p.kind == QUOTA_RESP then Lines(p.kind, ByType(p.attrs)) else []
  }

  /**
   Over every run, a client that decodes a worker's response reads exactly the result the database call
   left in the request the packet became.
   */
  lemma ClientReadsResult(n: nat, kafka: bool, run: seq<Action>, s: State, i: nat)
    requires Run(n, kafka, run, s) && i < |s.store.wire| && s.store.wire[i].Answer?
    ensures var reply := s.store.wire[i];
            && Decoded(ReplyBytes(reply)) == Reported(reply.request)
            && reply.r in s.store.life && SendDone(s.store.life[reply.r])
            && s.store.life[reply.r][1] == Returned(reply.request)
  {
    var reply := s.store.wire[i];
    var q := reply.request;
    AnswerIsRecorded(n, kafka, run, s, i);
    AnswersArePlain(n, kafka, run, s, i);
    EveryReplyAnswersOnePacket(n, kafka, run, s, i);
    hide Run;
    ResponseRoundTrip(q);
    assert ParsesTo(ReplyBytes(reply), q.num, ResponseKind(q.params), ResponseAttrs(q)) by {
      ReplyIsBuild(q);
    }
    hide Parse, Lines, ResponseAttrs, ByType;
  }

  lemma ReplyIsBuild(q: Request)
    requires q.resultDescr == ""
    ensures ParsesTo(ResponseBytes(q), q.num, ResponseKind(q.params), ResponseAttrs(q))
  {
    PlainResponseFits(q);
    assert ResponseBytes(q) + [] == ResponseBytes(q);
    hide ResponseAttrs;
    ParseBuild(q.num, ResponseKind(q.params), ResponseAttrs(q), []);
  }

  lemma AnswerIsRecorded(n: nat, kafka: bool, run: seq<Action>, s: State, i: nat)
    requires Run(n, kafka, run, s) && i < |s.store.wire| && s.store.wire[i].Answer?
    ensures var reply := s.store.wire[i];
            && reply.r in s.store.life && SendDone(s.store.life[reply.r])
            && s.store.life[reply.r][1] == Returned(reply.request)
  {
    hide Run;
    RunInv(n, kafka, run, s);
    var m, reply := s.store, s.store.wire[i];
    assert AnswersRecorded(m) && OncePerPacket(m.wire);
    hide PoolInv;
    var again := Answer(reply.r, m.life[reply.r][1].after);
    assert again in m.wire;
    var j :| 0 <= j < |m.wire| && m.wire[j] == again;
  }

  /** A rejected packet's sender reads -11 and the reason. */
  lemma ClientReadsRejection(n: nat, kafka: bool, run: seq<Action>, s: State, i: nat)
    requires Run(n, kafka, run, s) && i < |s.store.wire| && s.store.wire[i].Rejection?
    ensures Decoded(ReplyBytes(s.store.wire[i])) == [ResultLine(-11), DescrLine(Octets(s.store.wire[i].descr))]
  {
    var descr := s.store.wire[i].descr;
    hide *;
    RejectionIsText(n, kafka, run, s, i);
    RejectionRead(descr);
    RejectionParses(n, kafka, run, s, i);
  }

  /** The bytes of a rejection are a response with the code and the reason. */
  lemma RejectionParses(n: nat, kafka: bool, run: seq<Action>, s: State, i: nat)
    requires Run(n, kafka, run, s) && i < |s.store.wire| && s.store.wire[i].Rejection?
    ensures Decoded(ReplyBytes(s.store.wire[i]))
         == Lines(VALIDATEEX_RESP, ByType(RejectionAttrs(s.store.wire[i].descr)))
  {
    EveryReplyAnswersOnePacket(n, kafka, run, s, i);
    hide Run, Parse, RejectionAttrs, ReplyBytes, Lines, ByType;
  }

  lemma RejectionIsText(n: nat, kafka: bool, run: seq<Action>, s: State, i: nat)
    requires Run(n, kafka, run, s) && i < |s.store.wire| && s.store.wire[i].Rejection?
    ensures |s.store.wire[i].descr| <= 200 && Printable(s.store.wire[i].descr)
  {
    var reply := s.store.wire[i];
    EveryReplyAnswersOnePacket(n, kafka, run, s, i);
    ReceivedAreSmall(n, kafka, run, s, reply.r);
    hide Run, Classify, IsView, SmallData, Printable, AcceptedAs, ParsesTo;
    var p := s.intake.received[reply.r];
    var view :| IsView(p.attrs, view) && Classify(p.kind, view) == Rejected(reply.descr);
    RejectionShort(p.kind, p.attrs, view);
    RejectionTextPrintable(p.kind, view);
  }

  lemma RejectionRead(descr: string)
    requires Printable(descr) && |descr| < DESCR_ARRAY
    ensures Lines(VALIDATEEX_RESP, ByType(RejectionAttrs(descr))) == [ResultLine(-11), DescrLine(Octets(descr))]
  {
    ByTypeSorts(RejectionAttrs(descr));
    DescrRead(VALIDATEEX_RESP, descr);
    hide ByType, UpToZero, Octets;
    Int32Read(BAD_REQUEST);
    assert Int32Bytes(BAD_REQUEST)[..4] == Int32Bytes(BAD_REQUEST);
    SignedWord(BAD_REQUEST);
    hide Int32Bytes, ToInt32, FromBigEndian;
  }

  /** Whatever validation decides about the packet for every reading of it, its reply shows. */
  lemma ReplyFollows(n: nat, kafka: bool, run: seq<Action>, s: State, i: nat, outcome: Outcome)
    requires Run(n, kafka, run, s) && i < |s.store.wire|
    requires s.store.wire[i].r < |s.intake.received| ==>
               var p := s.intake.received[s.store.wire[i].r];
               p.kind != ARE_Y_ALIVE && forall view :: IsView(p.attrs, view) ==> Classify(p.kind, view) == outcome
    ensures var reply := s.store.wire[i];
            && !reply.AliveReply?
            && (reply.Rejection? ==> outcome == Rejected(reply.descr))
            && (reply.Answer? ==> outcome.Accepted? && Asked(outcome.params) == Asked(reply.request.params))
  {
    EveryReplyAnswersOnePacket(n, kafka, run, s, i);
    hide Run, Classify, IsView;
    var reply := s.store.wire[i];
    var p := s.intake.received[reply.r];
    if reply.Rejection? {
      var view :| IsView(p.attrs, view) && Classify(p.kind, view) == Rejected(reply.descr);
    } else if reply.Answer? {
      var view :| IsView(p.attrs, view) && Classify(p.kind, view).Accepted?
                  && Asked(Classify(p.kind, view).params) == Asked(reply.request.params);
    }
  }

  /** Action `k` of the run receives a datagram that begins with this packet; `r` is the packet's number. */
  ghost predicate Sent(run: seq<Action>, k: nat, r: nat, num: uint32, kind: uint16, attrs: seq<Attr>) {
    && k < |run| && run[k].Receive? && r == |Arrivals(run[..k])| && Fits(attrs)
    && exists rest :: run[k].datagram == Build(num, kind, attrs) + rest
  }

  /** The reply to it goes to its sender with its number. */
  lemma ReplyToSent(n: nat, kafka: bool, run: seq<Action>, s: State, i: nat, k: nat, num: uint32, kind: uint16,
                    attrs: seq<Attr>)
    requires Run(n, kafka, run, s) && i < |s.store.wire|
    requires Sent(run, k, s.store.wire[i].r, num, kind, attrs)
    ensures var reply := s.store.wire[i];
            && reply.r < |s.intake.received| && s.intake.received[reply.r] == Packet(run[k].from, num, kind, attrs)
            && Destination(reply) == run[k].from
            && ParsesTo(ReplyBytes(reply), num, ReplyKind(reply, kind), ReplyAttrs(reply))
  {
    hide Run, ParsesTo, Build;
    EveryReplyAnswersOnePacket(n, kafka, run, s, i);
    var rest :| run[k].datagram == Build(num, kind, attrs) + rest;
    ComposedArrives(n, kafka, run, s, k, s.store.wire[i].r, num, kind, attrs, rest);
  }

  /**
   A client sends the SMS request composed from `p`. A reply to it comes to that client, with that request
   number: the rejection if there was no origination address, and otherwise the answer to exactly the
   parameters sent, from which the client reads the result.
   */
  lemma SmsExchange(n: nat, kafka: bool, run: seq<Action>, s: State, i: nat, k: nat, num: uint32, p: Params)
    requires Run(n, kafka, run, s) && i < |s.store.wire| && p.Sms?
    requires Sent(run, k, s.store.wire[i].r, num, VALIDATEEX_REQ, SmsAttrs(p))
    ensures var reply := s.store.wire[i];
            && Destination(reply) == run[k].from
            && ParsesTo(ReplyBytes(reply), num, VALIDATEEX_RESP, ReplyAttrs(reply))
            && (reply.Answer? <==> p.oa != [])
            && (reply.Rejection? <==> p.oa == [])
            && (reply.Rejection? ==> reply.descr == "Origination address" + " is missing in request")
            && (reply.Answer? ==>
                  && Asked(reply.request.params) == Asked(p)
                  && Decoded(ReplyBytes(reply)) == [ResultLine(reply.request.resultCode)])
  {
    forall view | IsView(SmsAttrs(p), view)
      ensures Classify(VALIDATEEX_REQ, view) == SmsOutcome(p)
    {
      SmsClassified(p, view);
    }
    hide Run, SmsAttrs, IsView, Classify, Decoded, Sent, ParsesTo;
    ReplyToSent(n, kafka, run, s, i, k, num, VALIDATEEX_REQ, SmsAttrs(p));
    ReplyFollows(n, kafka, run, s, i, SmsOutcome(p));
    if s.store.wire[i].Answer? {
      ClientReadsResult(n, kafka, run, s, i);
    }
  }

  function SmsOutcome(p: Params): Outcome
    requires p.Sms?
  {
    if p.oa == [] then Rejected(MissingText("Origination address")) else Accepted(p)
  }

  /** The same for a composed quota request. */
  lemma QuotaExchange(n: nat, kafka: bool, run: seq<Action>, s: State, i: nat, k: nat, num: uint32, p: Params,
                      hasCalling: bool)
    requires Run(n, kafka, run, s) && i < |s.store.wire| && OneByteFields(p)
    requires Sent(run, k, s.store.wire[i].r, num, QUOTA_REQ, CamelAttrs(p, hasCalling))
    ensures var reply := s.store.wire[i];
            && Destination(reply) == run[k].from
            && ParsesTo(ReplyBytes(reply), num, if hasCalling then QUOTA_RESP else VALIDATEEX_RESP, ReplyAttrs(reply))
            && (reply.Answer? <==> hasCalling)
            && (reply.Rejection? <==> !hasCalling)
            && (reply.Rejection? ==> reply.descr == "Calling Party Number" + " is missing in request")
            && (reply.Answer? ==> reply.request.params == p && Decoded(ReplyBytes(reply)) == Reported(reply.request))
  {
    forall view | IsView(CamelAttrs(p, hasCalling), view)
      ensures Classify(QUOTA_REQ, view) == QuotaOutcome(p, hasCalling)
    {
      QuotaClassified(p, hasCalling, view);
    }
    assert p.Camel?;
    hide Run, CamelAttrs, IsView, Classify, Decoded, Reported, OneByteFields, Sent, ParsesTo;
    ReplyToSent(n, kafka, run, s, i, k, num, QUOTA_REQ, CamelAttrs(p, hasCalling));
    ReplyFollows(n, kafka, run, s, i, QuotaOutcome(p, hasCalling));
    if s.store.wire[i].Answer? {
      ClientReadsResult(n, kafka, run, s, i);
    }
  }

  /** A composed call finish notification can only be acknowledged, by a bare header. */
  lemma FinishExchange(n: nat, kafka: bool, run: seq<Action>, s: State, i: nat, k: nat, num: uint32, p: Params,
                       hasCalling: bool, duration: uint32)
    requires Run(n, kafka, run, s) && i < |s.store.wire| && OneByteFields(p)
    requires Sent(run, k, s.store.wire[i].r, num, CALL_FINISH_INFO, FinishAttrs(p, hasCalling, duration))
    ensures var reply := s.store.wire[i];
            && reply.Answer? && Destination(reply) == run[k].from
            && reply.request.params == Finish(p.imsi, p.callRef, p.camelEvent, duration)
            && ParsesTo(ReplyBytes(reply), num, CALL_FINISH_ACK, [])
  {
    forall view | IsView(FinishAttrs(p, hasCalling, duration), view)
      ensures Classify(CALL_FINISH_INFO, view) == Accepted(Finish(p.imsi, p.callRef, p.camelEvent, duration))
    {
      FinishClassified(p, hasCalling, duration, view);
    }
    assert p.Camel? && 0 <= p.camelEvent < 256;
    hide Run, FinishAttrs, IsView, Classify, OneByteFields, Sent, ParsesTo;
    ReplyToSent(n, kafka, run, s, i, k, num, CALL_FINISH_INFO, FinishAttrs(p, hasCalling, duration));
    ReplyFollows(n, kafka, run, s, i, Accepted(Finish(p.imsi, p.callRef, p.camelEvent, duration)));
  }

  function QuotaOutcome(p: Params, hasCalling: bool): Outcome {
    if hasCalling then Accepted(p) else Rejected(MissingText("Calling Party Number"))
  }

  lemma QuotaClassified(p: Params, hasCalling: bool, view: AttrMap)
    requires OneByteFields(p) && IsView(CamelAttrs(p, hasCalling), view)
    ensures Classify(QUOTA_REQ, view) == QuotaOutcome(p, hasCalling)
  {
    hide CamelAttrs, IsView, RowError, FirstError, OneByteFields;
    if hasCalling { CamelClassified(p, view); } else { CamelWithoutCalling(p, view); }
  }

  // ---- the other reader: who consumes the Kafka topics ----

  /** The schema and the fields of a record. */
  function SchemaOf(c: Cdr): seq<FieldType> {
    if c.SmsMessage? then SmsCdrs.SCHEMA else CallCdrs.SCHEMA
  }

  function FieldsOf(c: Cdr): seq<Value> {
    match c
    case SmsMessage(r) => SmsCdrs.Fields(r)
    case CallMessage(r) => CallCdrs.Fields(r)
  }

  /** Decoding the bytes, into whatever the reader holds, gives exactly this record. */
  ghost predicate ConsumerReads(c: Cdr, bs: seq<byte>) {
    forall held: seq<Value> :: Conforms(held, SchemaOf(c)) ==>
      ReadFields(SchemaOf(c), SchemaOrder(|SchemaOf(c)|), held, bs) == Some((FieldsOf(c), []))
  }

  lemma RecordsAreReadable(c: Cdr)
    requires c.SmsMessage? ==> SmsCdrs.Encodable(c.sms)
    ensures ConsumerReads(c, CdrBytes(c))
  {
    assert CdrBytes(c) + [] == CdrBytes(c) == RecordBytes(FieldsOf(c));
    assert Conforms(FieldsOf(c), SchemaOf(c));
    hide ReadFields, RecordBytes, FieldsOf, SchemaOf, CdrBytes;
    forall held: seq<Value> | Conforms(held, SchemaOf(c))
      ensures ReadFields(SchemaOf(c), SchemaOrder(|SchemaOf(c)|), held, CdrBytes(c)) == Some((FieldsOf(c), []))
    {
      RecordRoundTrip(FieldsOf(c), held, SchemaOf(c), []);
    }
  }

  /** Texts of accepted packets are short. */
  lemma AcceptedTextsShort(p: Packet, params: Params)
    requires AcceptedAs(p, params) && SmallData(p.attrs) && params.Sms?
    ensures |params.oa| < 0x1_0000 && |params.da| < 0x1_0000 && |params.msc| < 0x1_0000
  {
    var view :| IsView(p.attrs, view) && Classify(p.kind, view).Accepted?
                && Asked(Classify(p.kind, view).params) == Asked(params);
    AcceptedTexts(p.kind, view, params);
    hide Classify, Asked;
    forall t | t in view ensures |view[t]| < 0x1_0000 {
      assert Attr(t, view[t]) in p.attrs;
    }
  }

  lemma AcceptedTexts(kind: uint16, view: AttrMap, params: Params)
    requires Classify(kind, view).Accepted? && Asked(Classify(kind, view).params) == Asked(params) && params.Sms?
    ensures (params.oa, params.da) == (TextOf(view, VLD_OA), TextOf(view, VLD_DA))
    ensures params.msc == TextOf(view, VLD_SERVINGMSC)
  {
    hide FirstError, NumberOf, TextOf;
  }

  /**
   Every message a run produces is the record of one request, as its database call left it, and of the
   outcome of its one send attempt; the request has the parameters of its packet, no other message is about
   it, and a consumer of the topic reads exactly that record.
   */
  lemma ConsumerReadsRecord(n: nat, kafka: bool, run: seq<Action>, s: State, i: nat)
    requires Run(n, kafka, run, s) && i < |s.store.produced|
    ensures kafka
    ensures var (r, cdr) := s.store.produced[i];
            && r in s.store.life
            && var h := s.store.life[r];
               && |h| >= 4 && h[1].Returned? && h[2].SendTried? && h[3] == Logged(cdr)
               && IsLogged(h[1].after) && RecordOf(h[1].after, h[2].ok, cdr)
               && ConsumerReads(cdr, CdrBytes(cdr))
               && r < |s.intake.received| && AcceptedAs(s.intake.received[r], h[1].after.params)
    ensures forall j :: 0 <= j < |s.store.produced| && j != i ==> s.store.produced[j].0 != s.store.produced[i].0
  {
    var (r, cdr) := s.store.produced[i];
    LoggedHistory(n, kafka, run, s, i);
    var h := s.store.life[r];
    var q, ok := h[1].after, h[2].ok;
    var w := AnswerOf(n, kafka, run, s, r);
    EveryReplyAnswersOnePacket(n, kafka, run, s, w);
    hide Run, ConsumerReads, AcceptedAs, IsLogged, SmsRecordOf, QuotaRecordOf, FinishRecordOf;
    RecordMeans(q, ok, cdr);
    var p := s.intake.received[r];
    ReceivedAreSmall(n, kafka, run, s, r);
    if q.params.Sms? {
      AcceptedTextsShort(p, q.params);
      RecordedTexts(q, ok, cdr);
    }
    RecordsAreReadable(cdr);
  }

  lemma RecordedTexts(q: Request, ok: bool, cdr: Cdr)
    requires q.params.Sms? && RecordOf(q, ok, cdr)
    ensures cdr.SmsMessage? && cdr.sms.servingMSC == q.params.msc
    ensures (cdr.sms.originationMsisdn, cdr.sms.destinationMsisdn) == (q.params.oa, q.params.da)
  {
  }

  /**
   So a record can be traced to the run: its times are when the packet was taken up, its results those of
   the database call for the request, and its send flag the outcome of the send.
   */
  lemma ConsumerReadsRun(n: nat, kafka: bool, run: seq<Action>, s: State, i: nat)
    returns (taken: nat, call: nat, send: nat)
    requires Run(n, kafka, run, s) && i < |s.store.produced|
    ensures var (r, cdr) := s.store.produced[i];
            && TakesUp(n, kafka, run, taken, r)
            && LineAt(n, kafka, run, call, Process(r)) && run[call].choice.db.Some?
            && LineAt(n, kafka, run, send, Send(r))
            && r in s.store.life && |s.store.life[r]| >= 2 && s.store.life[r][1].Returned?
            && var q := s.store.life[r][1].after;
               && q.accepted == run[taken].now && HasOutputs(q, run[call].choice.db.value)
               && IsLogged(q) && RecordOf(q, run[send].choice.sendOk, cdr)
               && r < |s.intake.received| && AcceptedAs(s.intake.received[r], q.params)
  {
    var r := s.store.produced[i].0;
    ConsumerReadsRecord(n, kafka, run, s, i);
    hide *;
    call := ReturnedFrom(n, kafka, run, s, r);
    taken := TakenUpBefore(n, kafka, run, s, r, call);
    send := SentFrom(n, kafka, run, s, r);
  }

  /** The database call a history speaks of. */
  lemma ReturnedFrom(n: nat, kafka: bool, run: seq<Action>, s: State, r: nat) returns (call: nat)
    requires Run(n, kafka, run, s) && r in s.store.life && |s.store.life[r]| >= 2 && s.store.life[r][1].Returned?
    ensures CausedAt(n, kafka, run, call, r, s.store.life[r][1])
    ensures LineAt(n, kafka, run, call, Process(r)) && run[call].choice.db.Some?
    ensures HasOutputs(s.store.life[r][1].after, run[call].choice.db.value)
  {
    call := EventCause(n, kafka, run, s, r, 1);
    hide Run, Valid, Exec, Initial;
  }

  lemma SentFrom(n: nat, kafka: bool, run: seq<Action>, s: State, r: nat) returns (send: nat)
    requires Run(n, kafka, run, s) && r in s.store.life && |s.store.life[r]| >= 3 && s.store.life[r][2].SendTried?
    ensures LineAt(n, kafka, run, send, Send(r)) && run[send].choice.sendOk == s.store.life[r][2].ok
  {
    send := EventCause(n, kafka, run, s, r, 2);
    hide Run, Valid, Exec, Initial;
  }

  lemma TakenUpBefore(n: nat, kafka: bool, run: seq<Action>, s: State, r: nat, call: nat) returns (taken: nat)
    requires Run(n, kafka, run, s) && r in s.store.life && |s.store.life[r]| >= 2 && s.store.life[r][1].Returned?
    requires CausedAt(n, kafka, run, call, r, s.store.life[r][1])
    ensures TakesUp(n, kafka, run, taken, r) && s.store.life[r][1].after.accepted == run[taken].now
  {
    var t := Exec(Initial(n, kafka), run[..call]);
    assert Run(n, kafka, run[..call], t);
    hide Run, Exec, Valid, Initial;
    taken := AcceptedWhen(n, kafka, run[..call], t, r);
    assert run[..call][..taken] == run[..taken];
  }

  /**
   A client reads the answer the database gave to its request: the result of the call for SMS, the code
   and, if it is 0, the quota result and a positive number of chunks for quota requests; a call finish
   notification is acknowledged, and its request carries what the procedure returned.
   */
  lemma ClientReadsDatabase(n: nat, kafka: bool, run: seq<Action>, s: State, i: nat) returns (call: nat)
    requires Run(n, kafka, run, s) && i < |s.store.wire| && s.store.wire[i].Answer?
    ensures LineAt(n, kafka, run, call, Process(s.store.wire[i].r)) && run[call].choice.db.Some?
    ensures HasOutputs(s.store.wire[i].request, run[call].choice.db.value)
    ensures ReadsAnswer(s.store.wire[i].request, run[call].choice.db.value, Decoded(ReplyBytes(s.store.wire[i])))
  {
    var reply := s.store.wire[i];
    ClientReadsResult(n, kafka, run, s, i);
    hide Run, Decoded, Reported, HasOutputs, ReadsAnswer, LineAt, CausedAt;
    call := ReturnedFrom(n, kafka, run, s, reply.r);
    ReportedAnswer(reply.request, run[call].choice.db.value);
  }

  predicate ReadsAnswer(q: Request, db: DbReply, lines: seq<Line>) {
    if q.params.Sms? then lines == [ResultLine(ToInt8(db.result))]
    else if q.params.Finish? then lines == []
    else if ToInt8(db.success) != 0 then lines == [ResultLine(ToInt8(db.success))]
    else if db.chunks <= 0 then lines == [ResultLine(0), QuotaLine(ToInt8(db.quota))]
    else lines == [ResultLine(0), QuotaLine(ToInt8(db.quota)), ChunksLine(db.chunks % 0x1_0000_0000)]
  }

  lemma ReportedAnswer(q: Request, db: DbReply)
    requires HasOutputs(q, db)
    ensures ReadsAnswer(q, db, Reported(q))
  {
    OnlyInt8(db.result, q.resultCode);
    OnlyInt8(db.success, q.resultCode);
    OnlyInt8(db.quota, q.out.quotaResult);
    hide SameModulo, ToInt8;
  }

  /** An answered request is logged if and only if there is a producer and it is one of those logged. */
  lemma LoggedExactly(n: nat, kafka: bool, run: seq<Action>, s: State, r: nat)
    requires Run(n, kafka, run, s) && r in s.store.deleted && r in s.store.life && SendDone(s.store.life[r])
    ensures HasLogged(s.store.life[r]) <==> kafka && IsLogged(s.store.life[r][1].after)
    ensures HasLogged(s.store.life[r]) <==> exists i :: 0 <= i < |s.store.produced| && s.store.produced[i].0 == r
  {
    hide *;
    RunInv(n, kafka, run, s);
    RunRecords(n, kafka, run, s);
    Parts(s);
    DeletedHistory(s, r);
    LoggedInHistory(s.store.life[r], kafka);
    LoggedInRecords(s.store, r);
  }

  lemma LoggedInHistory(h: seq<Event>, kafka: bool)
    requires Complete(h, kafka) && SendDone(h)
    ensures HasLogged(h) <==> kafka && IsLogged(h[1].after)
  {
    var q, ok := h[1].after, h[2].ok;
    var before := h[..|h| - 1];
    LoggedMeans(q, ok);
    hide KafkaRecord, IsLogged, Sent;
    assert before[3..] == LogEntry(kafka, q, ok);
  }

  lemma LoggedInRecords(m: Store, r: nat)
    requires Recorded(m) && r in m.life
    ensures HasLogged(m.life[r]) <==> exists i :: 0 <= i < |m.produced| && m.produced[i].0 == r
  {
    if HasLogged(m.life[r]) {
      assert (r, m.life[r][3].cdr) in m.produced;
      var i :| 0 <= i < |m.produced| && m.produced[i] == (r, m.life[r][3].cdr);
    }
  }

  lemma ReceivedAreSmall(n: nat, kafka: bool, run: seq<Action>, s: State, r: nat)
    requires Run(n, kafka, run, s) && r < |s.intake.received|
    ensures SmallData(s.intake.received[r].attrs)
  {
    hide *;
    RunInv(n, kafka, run, s);
    Parts(s);
    TakenUpAreSmall(s, r);
  }

  lemma TakenUpAreSmall(s: State, r: nat)
    requires ReplyInv(s) && r < |s.intake.received|
    ensures SmallData(s.intake.received[r].attrs)
  {
    hide Replies, SmallData;
  }

  /** And every log entry of a history has its message. */
  lemma LoggedIsProduced(n: nat, kafka: bool, run: seq<Action>, s: State, r: nat)
    requires Run(n, kafka, run, s) && r in s.store.life && HasLogged(s.store.life[r])
    ensures (r, s.store.life[r][3].cdr) in s.store.produced
  {
    RunRecords(n, kafka, run, s);
    hide Run;
  }

  lemma LoggedHistory(n: nat, kafka: bool, run: seq<Action>, s: State, i: nat)
    requires Run(n, kafka, run, s) && i < |s.store.produced|
    ensures kafka
    ensures var (r, cdr) := s.store.produced[i];
            && r in s.store.life
            && var h := s.store.life[r];
               SendDone(h) && |h| >= 4 && h[3] == Logged(cdr) && KafkaRecord(h[1].after, h[2].ok) == Some(cdr)
    ensures forall j :: 0 <= j < |s.store.produced| && j != i ==> s.store.produced[j].0 != s.store.produced[i].0
  {
    hide *;
    RunInv(n, kafka, run, s);
    RunRecords(n, kafka, run, s);
    Parts(s);
    ProducedOnce(s.store, i);
    LoggedWasAnswered(s, s.store.produced[i].0);
  }

  lemma ProducedOnce(m: Store, i: nat)
    requires Recorded(m) && i < |m.produced|
    ensures m.produced[i].0 in m.life && HasLogged(m.life[m.produced[i].0])
    ensures |m.life[m.produced[i].0]| > 3 && m.life[m.produced[i].0][3] == Logged(m.produced[i].1)
    ensures forall j :: 0 <= j < |m.produced| && j != i ==> m.produced[j].0 != m.produced[i].0
  {
  }

  /** A request whose history has a log entry was answered, whether or not it is deleted yet. */
  lemma LoggedWasAnswered(s: State, r: nat)
    requires OwnershipInv(s) && HistoryInv(s) && r in s.store.life && HasLogged(s.store.life[r])
    ensures var h := s.store.life[r];
            SendDone(h) && s.kafka && |h| > 3 && h[3].Logged? && KafkaRecord(h[1].after, h[2].ok) == Some(h[3].cdr)
  {
    hide *;
    var m, held := s.store, HeldIds(s.ctl.workers);
    Whereabouts(s, r);
    if r in m.deleted {
      DeletedHistory(s, r);
      CompleteAnswered(m.life[r], s.kafka);
    } else if r in held {
      var w := HeldBySomeone(s.ctl.workers, r);
      HeldHistory(s, w);
      ClosedAnswered(m.life[r], s.kafka);
    } else {
      QueuedHistory(s, r);
    }
  }

  lemma Whereabouts(s: State, r: nat)
    requires OwnershipInv(s) && r in s.store.life
    ensures r in s.store.queue || r in HeldIds(s.ctl.workers) || r in s.store.deleted
  {
    var m := s.store;
    hide HeldIds;
    assert r in m.popped + m.queue;
    if r in m.popped {
      assert r in multiset(m.popped);
    }
  }

  lemma DeletedHistory(s: State, r: nat)
    requires HistoryInv(s) && r in s.store.deleted
    ensures r in s.store.life && Complete(s.store.life[r], s.kafka)
  {
    hide Complete, HeldAt, QueuedFresh;
  }

  lemma QueuedHistory(s: State, r: nat)
    requires HistoryInv(s) && r in s.store.queue
    ensures r in s.store.life && !HasLogged(s.store.life[r])
  {
    hide Complete, HeldAt;
  }

  lemma HeldHistory(s: State, w: nat)
    requires HistoryInv(s) && w < |s.ctl.workers| && Holds(s.ctl.workers[w])
    ensures var r := s.ctl.workers[w].r;
            r in s.store.life && (HasLogged(s.store.life[r]) ==> Closed(s.store.life[r], s.kafka))
  {
    assert HeldAt(s.store, s.ctl.workers[w], s.kafka);
    hide QueuedFresh, DeletedComplete, Closed;
  }

  lemma ClosedAnswered(h: seq<Event>, kafka: bool)
    requires Closed(h, kafka) && HasLogged(h)
    ensures SendDone(h) && kafka && |h| > 3 && h[3].Logged? && KafkaRecord(h[1].after, h[2].ok) == Some(h[3].cdr)
  {
    hide KafkaRecord;
    assert h[3] == h[3..][0];
  }

  lemma CompleteAnswered(h: seq<Event>, kafka: bool)
    requires Complete(h, kafka) && HasLogged(h)
    ensures SendDone(h) && kafka && |h| > 3 && h[3].Logged? && KafkaRecord(h[1].after, h[2].ok) == Some(h[3].cdr)
  {
    var before := h[..|h| - 1];
    assert HasLogged(before);
    assert before[1] == h[1] && before[2] == h[2] && before[3] == h[3];
    hide Closed, KafkaRecord;
    ClosedAnswered(before, kafka);
  }

  /** Where on the wire the answer of a request is. */
  lemma AnswerOf(n: nat, kafka: bool, run: seq<Action>, s: State, r: nat) returns (i: nat)
    requires Run(n, kafka, run, s) && r in s.store.life && SendDone(s.store.life[r])
    ensures i < |s.store.wire| && s.store.wire[i] == Answer(r, s.store.life[r][1].after)
  {
    hide Run;
    RunInv(n, kafka, run, s);
    assert AnswersRecorded(s.store);
    hide PoolInv;
    i :| 0 <= i < |s.store.wire| && s.store.wire[i] == Answer(r, s.store.life[r][1].after);
  }
}
