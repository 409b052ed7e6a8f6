# Request server: a verified model

The server receives datagrams over UDP, cuts them into packets, and answers each packet at once (an
"are you alive" probe, or a rejection) or turns it into a request for a pool of worker threads. A worker
takes a request from the queue, discards it if it is older than three seconds, has the database decide it,
answers the client under a mutex, and logs a record to Kafka. This project models that behaviour in Dafny
and proves what it guarantees over every run.

## How it is laid out

| file | what it holds |
|---|---|
| `Bytes.dfy` | network byte order, C++ integer conversions, decimal text |
| `PsPacket.dfy` | the wire packet: `Build`, `Parse`, and filling a buffer in place |
| `Avro.dfy`, `CallCdr.dfy`, `SmsCdr.dfy` | Avro primitives and streams, the two record codecs |
| `ClientRequests.dfy`, `Requests.dfy` | parameter decoders; validation, processing, responses and records as values |
| `SmsRequest.dfy`, `CamelRequest.dfy`, `CallFinishRequest.dfy` | the three request classes |
| `RequestObject.dfy` | a request object of any of the three classes |
| `Acceptance.dfy`, `RequestMeaning.dfy`, `WireImages.dfy` | the same with every attribute number, size, text, field and byte written out: what is accepted, what the database call and the log record mean, what is sent |
| `Framing.dfy`, `Dispatch.dfy` | cutting a datagram; what its packets amount to |
| `PoolModel.dfy` | the worker pool as a transition system, one action per source line and thread |
| `PoolControl.dfy`, `PoolOwnership.dfy`, `PoolHistory.dfy`, `PoolReplies.dfy` | its four inductive invariants |
| `PoolSafety.dfy` | what they give over every run |
| `PoolWakeup.dfy`, `PoolShutdown.dfy`, `PoolProgress.dfy`, `PoolStranding.dfy` | lost notifications, the destructor, progress, and the runs in which things go wrong |
| `PoolCauses.dfy` | which line put an event into a history, and what that line found |
| `PoolArrivals.dfy`, `PoolRecords.dfy` | every packet of every datagram is dispatched; every log entry is one Kafka message |
| `ConnectionPool.dfy`, `Server.dfy` | the pool and the server as objects updated in place, refining the transition system |
| `Schedule.dfy` | any interleaving of their lines, executed |
| `Tester.dfy`, `EndToEnd.dfy` | the test client; client, server, pool and record consumer together |
| `Config.dfy`, `ConfigLines.dfy` | the configuration reader; its lines and options written out |

`PoolModel.Step` is the heart. A state holds the program counter of the main thread and of each of `n`
workers, both mutexes, the flags, the queue, the live request objects, and a history of what happened to
every request. An action is one line of one thread, or a spurious wakeup. What the program cannot decide
is part of the action: the time, what the database returns or throws, whether `sendto` succeeds, which
sleeper `notify_one` picks. A run is any sequence of actions each of which was possible when it was taken,
so every interleaving is covered. A step that would touch a deleted request, an unset socket or producer,
or a freed database connection sets a flag that is proved never to be set.

The classes `Server` and `ConnectionPool` do the same with objects: the live requests are objects of the
three request classes, datagrams go to a `UdpSocket` and records to a `Producer`. Their invariant says that
the objects, the datagrams sent and the messages produced are those of a state that satisfies all
invariants; each line of a thread is proved to keep that and to be the step of the transition system.

## What the model assumes

- `boost::lockfree::queue` is a linearizable first-in-first-out queue and its push succeeds.
- `stopFlag` is read and written atomically. (It is a plain `bool` in ConnectionPool.h.)
- `Process` returns arbitrary values or throws `otl_exception`; it touches nothing but its own request.
- No request is pushed once the destructor has started (Server.cpp:101-124, main.cpp:92).
- CPSPacket is not part of the repository. A packet is an eight-byte header (request number 4, type 2,
  whole length 2) followed by attributes (type 2, data length 2, data), all in network byte order. `Parse`
  fails on anything else. `AddAttr` returns the new packet length, or 0 without touching the buffer when
  there is no room. `PS_RESULT` is 0 and `PS_DESCR` is 1, as their CAMEL counterparts (Common.h:94-95).
- `multimap::find` may return any attribute of the wanted type: the model quantifies over every choice
  (`IsView`).
- Times are integers in nanoseconds and the clock may go back. `unsigned long` and `time_t` have 64 bits.
- Uninitialised fields and outputs hold arbitrary values.
- Avro follows the Apache Avro Specification, "Binary Encoding"; reading a number fails after ten bytes.

## Where code and expectation differ

- The wait has no predicate. A request can stay in the queue with every worker asleep;
  `PoolWakeup.StrandedExactly` says exactly when, `PoolStranding.StrandingHappens` gives a run for every
  acceptable first request.
- The destructor hangs exactly when `notify_all` meets a worker between reading `stopFlag` and the wait
  (`PoolShutdown.ShutdownCompletesIff`), and such a run exists (`PoolStranding.LateSleeperHappens`).
- A rejection is of type VALIDATEEX_RESP whatever was asked (Server.cpp:207).
- A configuration line of blanks only is refused as an unknown parameter (`Configs.BlankLine`). An option
  name with no separator behind it is accepted exactly when nothing stands in front of it and the option
  takes an empty value (`Configs.BareLine`): `LOG_DIR` is read, ` LOG_DIR` is refused
  (`Configs.IndentedLine`).
- The alive replies and rejections of the main thread are sent without `socketMutex`; mutual exclusion is
  claimed for the workers only.

## Model

| member | source | states |
|---|---|---|
| PoolControl.ControlKept | ConnectionPool.cpp:16-93 | no step breaks the agreement of flags, program counters and mutex owners: each mutex is owned by exactly the worker in its critical section |
| PoolOwnership.OwnershipKept | ConnectionPool.cpp:63-93 | no step loses, duplicates or reorders a request: arrivals are popped + queue, popped is held + deleted, live objects are queued + held |
| PoolHistory.HistoryKept | ConnectionPool.cpp:79-144 | no step takes a request off the paths discard, database failure, or answer |
| PoolReplies.ReplyKept | ConnectionPool.cpp:124-144 | no step sends a reply that does not suit its packet, or a second one |
| PoolSafety.RunInv | ConnectionPool.cpp:16-144 | all four invariants hold in every reachable state, for any number of workers |
| PoolSafety.NeverFaults | ConnectionPool.cpp:40-59 | no run touches a request outside its lifetime, uses a freed connection, or reads the socket or producer before they are set, although threads start first |
| PoolSafety.RequestsConserved | ConnectionPool.cpp:63-93 | pushed requests are always the disjoint union of queued, held and deleted, each once |
| PoolSafety.ArrivalOrder | ConnectionPool.cpp:71-93 | pops follow pushes in order; deleted requests are a prefix of arrivals minus at most `n` |
| PoolSafety.MutualExclusion | ConnectionPool.cpp:124-131 | no two workers are inside SendResultToClient or own the queue lock at once, and no two hold the same request |
| PoolSafety.ExactOutcome | ConnectionPool.cpp:79-144 | a deleted request had exactly one of: age at least 3,000,000,000 ns, database exception with result -100, or one send attempt followed by its log entry; every other one was younger than 3 s when its turn came; it is on the wire exactly in the last case |
| PoolCauses.EventCause | ConnectionPool.cpp:79-144 | over every run each event of each history was added by one line of one worker, and is what that line found: the age by its clock, below or from 3 s on; the outputs of its database call, field by field; -100; the outcome of its send; the record described; the deletion |
| PoolCauses.AgeDecides | ConnectionPool.cpp:80-88 | a worker at the age check goes on to process the request if and only if its clock is less than 3,000,000,000 ns behind the clock when the packet was taken up, and otherwise to delete it |
| PoolCauses.DatabaseDecides | ConnectionPool.cpp:103-120 | a worker whose database call returns leaves its outputs in the request and goes on to the response; one whose call throws goes to the handler |
| PoolCauses.FailureCause | ConnectionPool.cpp:113-119 | a history says -100 only if the call for that request threw |
| PoolSafety.EveryReplyAnswersOnePacket | Server.cpp:127-200 | every datagram sent answers one packet received before, injectively, with its number, sender and the right type; a rejection carries the reason validation gives, an answered request the parameters of the packet |
| PoolSafety.AnswersArePlain | ConnectionPool.cpp:96-121 | over every run no worker response has a description attribute, and each is at most 26 bytes long |
| PoolSafety.DispatchesCounted | Server.cpp:144-200 | packets dispatched are pushes plus direct replies; no pushed request also gets a direct reply |
| PoolSafety.EveryPacketSettled | Server.cpp:144-200 | once every pushed request is deleted, a packet dispatched has no reply if and only if its request expired or failed in the database: none is overlooked |
| PoolOwnership.Exclusive | ConnectionPool.cpp:78-90 | a request a worker holds is alive, in no other worker's hands, not queued and not deleted |
| PoolOwnership.InFlightWindow | ConnectionPool.cpp:78-90 | popped minus deleted is the number of requests held, at most `n` |
| PoolWakeup.StrandedExactly | ConnectionPool.cpp:63-93 | with requests waiting and no notify pending, no worker is draining if and only if the latest notify found every worker between a failed pop and the wait and none has woken since |
| PoolWakeup.StrandedUntilWoken | ConnectionPool.cpp:71-93 | from there nothing is popped before the next notify or spurious wakeup |
| PoolStranding.StrandingHappens | ConnectionPool.cpp:63-93 | for every acceptable first datagram there is a run that leaves its request queued beside a sleeping worker |
| PoolStranding.AcceptableRequestExists | CallFinishRequest.cpp:14-34 | such datagrams exist |
| PoolStranding.LateSleeperHappens | ConnectionPool.cpp:16-24 | there is a run whose destructor cannot finish without a spurious wakeup |
| PoolShutdown.ClosingStep | ConnectionPool.cpp:16-24 | after notify_all with no late sleeper, every step of any thread lowers a measure |
| PoolShutdown.ClosingProgress | ConnectionPool.cpp:16-24 | and some step other than a spurious wakeup is possible until all is joined: no deadlock on either mutex |
| PoolShutdown.ShutdownTerminates | ConnectionPool.cpp:16-24 | so every continuation is finite and the maximal ones have joined every worker |
| PoolShutdown.ShutdownCompletesIff | ConnectionPool.cpp:16-24 | the destructor can finish without spurious wakeups if and only if notify_all caught no worker between the flag and the wait |
| PoolShutdown.ShutdownDrains | ConnectionPool.cpp:16-28 | afterwards the queue is empty if and only if it was, or a worker still had the queue ahead of it; pushed is deleted plus still queued, each once |
| PoolProgress.DrainBounded | ConnectionPool.cpp:71-93 | without pushes all workers together run at most 8 lines per queued request plus their distances to sleep, and a few more per wakeup, under any scheduling and however the mutexes change hands |
| PoolProgress.DrainCompletes | ConnectionPool.cpp:73-92 | so a continuation after which no worker can move has every draining worker's empty pop behind it, within that bound |
| PoolProgress.RestingMeansServed | ConnectionPool.cpp:63-93 | when no worker can move and no notify is due, no worker is draining, and the queue is empty or the latest notify was missed |
| PoolProgress.RestingMeansSettled | ConnectionPool.cpp:63-144 | then everything pushed is queued or deleted, and the queue is empty or the latest notify was missed; with an empty queue every packet dispatched has its reply on the wire, save exactly the requests that expired or failed in the database |
| PoolProgress.DrainerNotBlocked | ConnectionPool.cpp:71-131 | a draining worker can move or waits for a mutex whose owner frees it in at most two unblockable lines |
| PoolProgress.SingleWorkerInOrder | ConnectionPool.cpp:71-93 | with one worker, responses leave in arrival order |
| PoolArrivals.EveryArrivalDispatched | Server.cpp:127-139 | over every run the packets dispatched and still ahead are exactly those of the datagrams received, in order |
| PoolArrivals.ComposedArrives | Server.cpp:127-200 | a composed packet at the front of a datagram arrives with its sender, number, type and attributes |
| PoolRecords.RunRecords | ConnectionPool.cpp:141-143 | over every run the messages produced and the log entries of the histories correspond one to one; no request is recorded twice |
| ConnectionPools.ConnectionPool.constructor | ConnectionPool.cpp:8-13 | the object starts valid, in the initial state |
| ConnectionPools.ConnectionPool.InitializeLine | ConnectionPool.cpp:52-58 | each line keeps the pool valid and is the step of the transition system |
| ConnectionPools.ConnectionPool.DestructorLine | ConnectionPool.cpp:16-28 | the same for the destructor |
| ConnectionPools.ConnectionPool.PushRequest | ConnectionPool.cpp:63-65 | pushing the object made from an accepted packet keeps the pool valid and completes the dispatch of that packet: it joins the queue behind all others and a notify is due |
| ConnectionPools.ConnectionPool.NotifyOne | ConnectionPool.cpp:66-66 | a sleeper, if any, is woken; a notify without sleepers is lost |
| ConnectionPools.ConnectionPool.WaitLine | ConnectionPool.cpp:73-76 | each line of the wait is the step of the transition system and disturbs no object |
| ConnectionPools.ConnectionPool.PopLine | ConnectionPool.cpp:78-79 | the same for the pop |
| ConnectionPools.ConnectionPool.AgeLine | ConnectionPool.cpp:80-89 | the same for the age check, on a live object: on to process it if its age is below 3,000,000,000 ns, otherwise to delete it |
| ConnectionPools.ConnectionPool.DeleteLine | ConnectionPool.cpp:90-90 | the object goes, the others stay as they are |
| ConnectionPools.ConnectionPool.ProcessRequestLine | ConnectionPool.cpp:96-121 | the request object's own Process, or the exception handler, changes that object as the step says and no other |
| ConnectionPools.ConnectionPool.SocketLine | ConnectionPool.cpp:129-131 | taking and giving back the socket mutex |
| ConnectionPools.ConnectionPool.SendLine | ConnectionPool.cpp:130-130 | the request object's own SendResultToClient sends one datagram, the one the step says; the socket is set and the response fits |
| ConnectionPools.ConnectionPool.LogLine | ConnectionPool.cpp:141-143 | the request object's own LogToKafka produces the message the step says, to the topic of its kind, or none |
| Schedules.RunSchedule | ConnectionPool.cpp:16-144 | executing any schedule of any threads leaves the objects in the state of a run, the socket with exactly its replies as datagrams, and the producer with exactly its records: SMS records to the one topic, call records to the other |
| EndToEnd.ClientReadsResult | tester/main.cpp:215-289 | over every run a client decodes from a worker's response exactly the result the database call left in that request |
| EndToEnd.ClientReadsDatabase | tester/main.cpp:215-289 | over every run a client reads what the database call for its packet returned: for SMS the result; for quota requests the success code and, if it is 0, the quota result and positive chunks modulo 2^32; for finished calls nothing; the request carries the other outputs |
| EndToEnd.ClientReadsRejection | tester/main.cpp:215-289 | and from a rejection the code -11 and the whole reason, which always fits the client's array and has no zero byte |
| EndToEnd.ConsumerReadsRecord | ConnectionPool.cpp:124-144 | over every run each message is the record of one request as its database call left it and of its one send attempt, field by field, has the parameters of its packet, is the only one about it, and is decoded by a consumer of the topic exactly |
| EndToEnd.ConsumerReadsRun | ConnectionPool.cpp:79-144 | and can be traced to the run: its times are when the packet was taken up, its results those the database call returned, its send flag the outcome of the send |
| EndToEnd.LoggedExactly | ConnectionPool.cpp:141-143 | an answered request is logged if and only if there is a producer and it is an SMS request with an IMSI, a refused call of a successful quota request, or a finished call |
| EndToEnd.LoggedIsProduced | ConnectionPool.cpp:141-143 | and every log entry has its message |
| EndToEnd.ReplyFollows | Server.cpp:144-200 | what validation decides about a packet for every reading of it, its reply shows |
| EndToEnd.SmsExchange | tester/main.cpp:108-154 | a datagram that begins with a composed SMS request: its reply goes to its sender with its number, is the rejection if and only if there was no origination address, and otherwise answers exactly the parameters composed, which the client reads |
| EndToEnd.QuotaExchange | tester/main.cpp:155-182 | the same for quota requests and the calling number |
| EndToEnd.FinishExchange | tester/main.cpp:155-187 | a composed call finish notification is only ever acknowledged, by a bare header |
| Dispatching.DispatchAgrees | Server.cpp:144-200 | a dispatch step sends and queues what validation decides about the packet, and nothing else |
| Dispatching.DispatchesAddUp | Server.cpp:144-200 | alive replies, rejections and pushes add up to the packets |
| Servers.Server.ProcessIncomingData | Server.cpp:127-139 | the loop ends within bounds and dispatches exactly the leading run of parseable packets, in order, once each; it amounts to a run whose arrivals are those packets |
| Servers.Server.ProcessNextRequestFromBuffer | Server.cpp:144-200 | one packet gives one alive reply, one rejection or one request queued; the result is its length, or -1 and no effect |
| Servers.Server.ProcessPacket | Server.cpp:161-198 | taking up a packet, to the push, keeps server and pool valid and is the step of the transition system |
| Servers.Server.NewClientRequest | Server.cpp:178-196 | the class the packet type names, accepted exactly as its validation says |
| Servers.Server.SendNotAcceptedResponse | Server.cpp:203-223 | code -11 and the description, as VALIDATEEX_RESP with the request number; both fit |
| Servers.Server.SendIAmAliveResponse | Server.cpp:226-239 | the bare header |
| Framing.PacketsFront | Server.cpp:127-139 | a packet in front of anything is dispatched first and the rest as if it came alone |
| Framing.PacketsOfDivision | Server.cpp:127-139 | however a datagram divides into k whole packets and an unparseable tail, exactly those k are dispatched, in order |
| Framing.Division | Server.cpp:127-139 | every datagram has such a division |
| Framing.PacketsOfComposed | Server.cpp:127-139 | k composed packets and an unparseable tail give exactly k dispatches with their contents |
| PsPacket.ParseBuild | Server.cpp:146-158 | a built packet is read back whole, whatever follows it |
| PsPacket.BuildParse | Server.cpp:146-158 | whatever parses is the build of what it parses to |
| PsPacket.PacketLayout | Server.cpp:203-217 | a packet byte by byte, every integer with its most significant byte first |
| PsPacket.AttrLayout | Server.cpp:213-217 | and an attribute |
| PsPacket.AddAttr | Server.cpp:214-217 | appending in place extends the packet in the buffer, or leaves it alone when there is no room |
| ClientRequests.SetRequiredIntParam | ClientRequest.h:41-76 | accepts exactly a present attribute of the required, or any supported, size and stores its value reduced to the destination type; otherwise the error and the old value |
| ClientRequests.SetOptionalIntParam | ClientRequest.h:79-91 | stores the default exactly when the attribute is missing |
| ClientRequests.SetStringParam | ClientRequest.cpp:15-28 | the attribute's bytes, or the error and the old value |
| ClientRequests.MissingTextIsDistinct | ClientRequest.h:85-85 | the text compared with can never equal a wrong-size message, for any parameter name |
| ClientRequests.OptionalClassification | ClientRequest.h:79-91 | so the comparison succeeds if and only if the attribute is missing |
| ClientRequests.IntValueOfSent | ClientRequest.h:56-73 | a number sent in any width arrives reduced to the destination type, unchanged if it fits |
| Bytes.NetworkOrder | ClientRequest.h:56-73 | what one, two, four and eight bytes in network order count |
| Requests.AcceptedIff | SmsRequest.cpp:17-50 | validation accepts if and only if every check of its list passes; the next rows write the lists out |
| Acceptance.SmsVerdict | SmsRequest.cpp:17-50 | an SMS request is accepted if and only if 0x1003, 0x1005 and 0x100A are there, 0x1004, 0x1006, 0x1008 and 0x1009 with one byte, 0x1007 with two, and 0x100B, if there, with eight; it then holds their values; otherwise the first failing check gives the text |
| Acceptance.QuotaVerdict | CamelRequest.cpp:13-49 | a quota request is accepted if and only if 1 to 8 are there in a width of 1, 2, 4 or 8; values and texts as above, 16-bit fields reduced |
| Acceptance.FinishVerdict | CallFinishRequest.cpp:14-34 | the same for a call finish notification and 1, 6, 7 and 9 |
| Acceptance.OtherVerdicts | Server.cpp:161-172 | type 4 is a probe, and any type but 4, 0x1100, 0x1200 and 0x1202 is rejected as unsupported |
| Acceptance.SmsOneMissing | SmsRequest.cpp:17-50 | lacking exactly one required attribute, an SMS request is rejected with that attribute's text |
| Acceptance.QuotaOneMissing | CamelRequest.cpp:13-49 | the same for a quota request |
| Acceptance.FinishOneMissing | CallFinishRequest.cpp:14-34 | the same for a call finish notification |
| RequestMeanings.ProcessedMeans | CamelRequest.cpp:52-72 | a request after its database call is the one that has each output in its own field, reduced to one byte where the field is one, and everything else as before: for all three classes |
| RequestMeanings.RecordMeans | CallFinishRequest.cpp:76-96 | which requests are logged, and every field of the record of each class: times in whole seconds toward zero, in milliseconds; durations in tenths toward zero; unsigned numbers as signed ones |
| Requests.RejectionTextLength | Server.cpp:161-196 | every rejection text is at most 200 characters |
| Requests.RejectionTextPrintable | Server.cpp:161-196 | and printable, so it holds no zero byte |
| Requests.RejectionFits | Server.cpp:203-217 | so every rejection fits its buffer |
| Requests.PlainResponseFits | CamelRequest.cpp:75-99 | a response without description is at most 26 bytes; an acknowledgement is exactly a header and fits its 20 bytes |
| WireImages.SmsResponseImage | SmsRequest.cpp:80-102 | the 16 bytes of an SMS response |
| WireImages.QuotaResponseImage | CamelRequest.cpp:75-106 | the 13, 18 or 26 bytes of a quota response |
| WireImages.BareImages | Server.cpp:226-239 | the eight bytes of an acknowledgement and of an alive reply |
| WireImages.RejectionImage | Server.cpp:203-220 | the bytes of a rejection, of type 0x1101 with -11 and the text |
| SmsRequests.SmsRequest.ValidateAndSetParams | SmsRequest.cpp:17-50 | accepts exactly the complete attributes, each number and text in its field; otherwise gives the text of the first failing check |
| SmsRequests.SmsRequest.Process | SmsRequest.cpp:72-76 | the result, reduced to one byte, and the IMSI the database returns, and nothing else |
| SmsRequests.SmsRequest.SendResultToClient | SmsRequest.cpp:80-102 | one datagram to the client: the response of the request's state, or nothing and a failure when its description has no room |
| SmsRequests.SmsRequest.LogToKafka | SmsRequest.cpp:105-134 | nothing for a zero IMSI, otherwise the encoded record of the request's state |
| SmsRequests.SmsRequest.EncodeCdr | SmsRequest.cpp:137-149 | the bytes of the record |
| CamelRequests.CamelRequest.ValidateAndSetParams | CamelRequest.cpp:13-49 | accepts exactly the complete attributes, each number and text in its field; otherwise gives the text of the first failing check |
| CamelRequests.CamelRequest.Process | CamelRequest.cpp:68-71 | the success code and the quota result, each reduced to one byte, and the chunks, and nothing else |
| CamelRequests.CamelRequest.SendResultToClient | CamelRequest.cpp:75-106 | one datagram to the client: the response of the request's state, or nothing and a failure when its description has no room |
| CamelRequests.CamelRequest.LogToKafka | CamelRequest.cpp:124-151 | a record exactly for a successful request whose quota result refuses the call |
| CallFinishRequests.CallFinishRequest.ValidateAndSetParams | CallFinishRequest.cpp:14-34 | accepts exactly the complete attributes, each number and text in its field; otherwise gives the text of the first failing check |
| CallFinishRequests.CallFinishRequest.Process | CallFinishRequest.cpp:51-54 | the calling and called number, the start time and the last quota result the database returns, success, and nothing else |
| CallFinishRequests.CallFinishRequest.SendResultToClient | CallFinishRequest.cpp:58-73 | one bare header to the client |
| CallFinishRequests.CallFinishRequest.LogToKafka | CallFinishRequest.cpp:76-96 | always a record: calling and called number each in its field, the start time in milliseconds, the accept time in whole seconds, the duration in tenths toward zero, the last quota result |
| Avro.LongLength | sms-cdr-avro.h:61-74 | a long takes at most 10 bytes, an int at most 5 |
| Avro.LongRoundTrip | sms-cdr-avro.h:61-74 | every 64-bit number is read back, whatever follows |
| Avro.LongBytesMean | sms-cdr-avro.h:61-74 | the groups of seven bits of a long, lowest first, as few as possible: 0, -1, 1, -2 are 00, 01, 02, 03 |
| Avro.LongReadable | sms-cdr-avro.h:76-121 | a number can be read if and only if it ends within ten bytes |
| Avro.ReadWritten | sms-cdr-avro.h:76-121 | reading what was written in any order sets exactly the fields the order names |
| Avro.UnvisitedKept | sms-cdr-avro.h:76-121 | fields the order does not name keep their values, whatever the bytes |
| Avro.AnyOrderRoundTrip | sms-cdr-avro.h:76-121 | every order that covers the schema recovers the record, from any previous contents |
| Avro.RecordRoundTrip | sms-cdr-avro.h:61-74 | schema order recovers the record and leaves exactly the bytes behind it |
| Avro.UniqueDecoding | sms-cdr-avro.h:61-74 | a concatenation of records can be cut in one way only |
| Avro.Encoder.EncodeLong | sms-cdr-avro.h:62-62 | the loop appends the zigzag variable-length form |
| Avro.Decoder.DecodeLong | sms-cdr-avro.h:123-123 | the loop reads what the specification reads, and fails when it fails |
| CallCdrs.RoundTrip | camel-avro.h:51-100 | every call record is recovered from its bytes, whatever follows |
| CallCdrs.EncodedMeans | camel-avro.h:51-59 | the bytes of a call record: the seven named fields in this order |
| CallCdrs.FieldOrderRoundTrip | camel-avro.h:61-91 | and from any resolver-supplied field order |
| CallCdrs.CallCdr.Encode | camel-avro.h:51-59 | the stream grows by the record's bytes |
| CallCdrs.CallCdr.Decode | camel-avro.h:60-101 | the loop over the field order does what the specification of reading says |
| SmsCdrs.RoundTrip | sms-cdr-avro.h:61-135 | every SMS record is recovered from its bytes, whatever follows |
| SmsCdrs.EncodedMeans | sms-cdr-avro.h:61-74 | the bytes of an SMS record: the twelve named fields in this order, texts behind their lengths |
| SmsCdrs.FieldOrderRoundTrip | sms-cdr-avro.h:76-121 | and from any resolver-supplied field order |
| SmsCdrs.SmsCdr.Encode | sms-cdr-avro.h:61-74 | the stream grows by the record's bytes |
| SmsCdrs.SmsCdr.Decode | sms-cdr-avro.h:75-136 | the loop over the field order does what the specification of reading says |
| Tester.SmsRequestRoundTrip | tester/main.cpp:122-154 | composing, parsing and validating recovers every field, through any view; only the request without origination address is rejected |
| Tester.QuotaRequestRoundTrip | tester/main.cpp:155-182 | the same for quota requests; rejected exactly without a calling number |
| Tester.FinishRequestRoundTrip | tester/main.cpp:155-187 | the same for call finish notifications, which are always accepted |
| Tester.ComposeRequest | tester/main.cpp:108-198 | for every type and MSISDN what is sent is the packet of the attributes that had room, or nothing if the last had none |
| Tester.ComposedWhole | tester/main.cpp:115-187 | with an MSISDN of at most 900 bytes that is the whole packet |
| Tester.RoomIs | tester/main.cpp:115-187 | an attribute is left out if and only if with it the packet would exceed 1024 bytes; then the last one's absence means nothing is sent |
| Tester.TestRequestsMean | tester/main.cpp:111-187 | what the server makes of the test requests, every constant of the menu in its field |
| Tester.QuotaAnyWidths | CamelRequest.cpp:13-49 | a quota request with its numbers in any mixture of widths 1, 2, 4 and 8, in any order, is accepted and every field arrives reduced to its type |
| Tester.FinishAnyWidths | CallFinishRequest.cpp:14-34 | the same for a call finish notification |
| Tester.ParseNextResponseFromBuffer | tester/main.cpp:215-289 | the loop reads every attribute once, in the order of the types, each by its type and width; a description is cut at its first zero byte, and overruns the array it is copied into from 1024 bytes on |
| Tester.DescrRead | tester/main.cpp:255-257 | a printable description comes back whole if and only if it is shorter than the array |
| Tester.ByTypeSorts | tester/main.cpp:238-238 | that order is a sorted arrangement of the same attributes and leaves sorted ones alone |
| Tester.ResponseRoundTrip | CamelRequest.cpp:75-99 | the client recovers every signed result, the quota result, and positive chunks modulo 2^32, absent when not positive |
| Configs.Config.ReadConfigFile | Config.cpp:19-89 | settings are the old ones overridden by the last line naming each option (`ConfigLines.FileSets` says which setting that is); the first bad line stops the reader with its error |
| Configs.Config.ReadLine | Config.cpp:24-87 | one line sets what it names, or fails and sets nothing |
| Configs.Config.SetOption | Config.cpp:50-87 | exactly the named field changes, to the value: each of the eight options its own |
| Configs.Config.ValidateParams | Config.cpp:102-111 | passes exactly with a connect string and 1 to 16 connections |
| Configs.OptionLine | Config.cpp:24-87 | name in any letter case behind any blanks, any run of separators, value, comment: exactly that option is set to exactly that value, or the value does not convert; the next rows write out the characters, the options and the conversions |
| ConfigLines.TextLine | Config.cpp:24-87 | a well-formed line (characters and letter case written out) with LOG_DIR, CONNECT_STRING, KAFKA_BROKER, KAFKA_TOPIC_SMS or KAFKA_TOPIC_CALLS sets that setting to the value and no other |
| ConfigLines.LevelLine | Config.cpp:62-75 | LOG_LEVEL takes error, notice and debug to their levels and stops the reader otherwise |
| ConfigLines.NumberLine | Config.cpp:50-61 | SERVER_PORT and CONNECTION_COUNT take the number read, modulo 2^32 and 2^16; no digits and too many are errors |
| ConfigLines.StoULMeans | Config.cpp:92-100 | white space, a sign, digits and what follows: the number, wrapped around for a minus, none without digits, out of range from 2^64 on |
| ConfigLines.FileSets | Config.cpp:19-89 | after a file each of the eight settings is what the last line naming its option says, or what it was |
| ConfigLines.LastValueMeans | Config.cpp:19-89 | that line exists, and no line behind it names the option |
| ConfigLines.FirstDigit | Config.cpp:92-100 | digits count by their decimal place |
| Configs.OverriddenDetermines | Config.cpp:19-89 | the old settings and the lines leave no choice |
| Configs.BareLine | Config.cpp:24-36 | an option name with no separator behind it: the whole line is the name, and it is accepted if and only if nothing stands in front and the option takes an empty value |
| Configs.IndentedLine | Config.cpp:30-36 | LOG_DIR alone is read, and refused when indented |
| Configs.BlankLine | Config.cpp:24-87 | a line of blanks is refused unless it is empty |
| Configs.NumberRoundTrip | Config.cpp:92-100 | a decimal number is read back, reduced to the width of its field |

## Left out

- Sockets, addresses as text, signals, the pid file, Windows branches: a send is an entry in a log of
  attempts, a receive an arbitrary datagram.
- The failure paths of `Initialize` (ConnectionPool.cpp:34-37, 42-51): the runs start after the logons.
- DBConnect and the stored procedures: `Process` is nondeterministic; outputs assigned before an exception
  are not modelled, only that the request fails.
- librdkafka and `WaitForKafkaQueue`: producing is an entry in a log of messages.
- CPSPacket's own code, and its textual dump.
- Calendar conversion in otl_utils.cpp: the start time is a value the database returns.
- Requests rejected before they are pushed (Server.cpp:191-196 does not delete them): deletion is claimed
  for pushed requests only.
- `serviceKey` of a call finish request, which is sent to the database but never set.
- Destruction order of the members of `Server`, `DumpAllSettings`, log texts, the menu and printing of the
  test client, and the number strtoull reads from its MSISDN (a parameter).
- Tester.ParseNextResponseFromBuffer: reading behind an attribute that is too short, or writing behind the
  array a description is copied into, is a line `Overrun`; what the process then does is not modelled.
- Configs.Config.ReadConfigFile: takes the lines as `getline` delivers them; `toupper` is that of the C locale.
- Servers.Server.ProcessIncomingData: runs with no worker moving between its packets; with workers in
  between, `Schedules.RunSchedule` moves the server one packet, and its notify, at a time. Real threads and
  memory orders are not modelled, their interleavings are schedules.
- Shutdown without a Kafka broker: `WaitForKafkaQueue` (Server.cpp:124) then uses a null producer before the
  destructor runs. The shutdown results also range over runs without a producer, as if that call returned.
- PoolShutdown.ShutdownCompletesIff: speaks of the destructor without the help of spurious wakeups, since
  one of those may always rescue a late sleeper.
- PoolProgress.DrainBounded: bounds lines, not time; that a thread that can run does run is up to the
  operating system.
