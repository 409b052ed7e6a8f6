/**
 The pool in its own form: an object whose fields the threads update in place, one line at a time. The
 requests are objects of the three request classes, responses go to a socket and records to a producer.
 What a line does to all of them is the step of the transition system, so everything proved over runs
 holds of any interleaving of these methods, and of the bytes that leave.
 */
module ConnectionPools {
  import opened Bytes
  import opened ClientRequests
  import opened Requests
  import opened PoolModel
  import opened PoolControl
  import opened PoolOwnership
  import opened PoolReplies
  import opened PoolSafety
  import opened PoolRecords
  import opened Dispatching
  import opened RequestObjects

  /** The object holds this request, and logs to the topic of its kind. */
  ghost predicate Mirrors(o: RequestObject, q: Request, sms: string, calls: string)
    reads o.Ref()
  {
    o.View() == q && o.Topic() == if q.params.Sms? then sms else calls
  }

  lemma MirrorsIf(o: RequestObject, q: Request, sms: string, calls: string)
    requires o.View() == q && o.Topic() == if q.params.Sms? then sms else calls
    ensures Mirrors(o, q, sms, calls)
  {
  }

  lemma MirrorsMeans(o: RequestObject, q: Request, sms: string, calls: string)
    requires Mirrors(o, q, sms, calls)
    ensures o.View() == q && o.Topic() == if q.params.Sms? then sms else calls
  {
  }

  ghost function Refs(objects: map<nat, RequestObject>): set<object> {
    set r | r in objects :: objects[r].Ref()
  }

  /** The objects are the live requests, one each. */
  ghost predicate Mirrored(objects: map<nat, RequestObject>, heap: map<nat, Request>, sms: string, calls: string)
    reads Refs(objects)
  {
    && objects.Keys == heap.Keys
    && (forall r :: r in objects ==> Mirrors(objects[r], heap[r], sms, calls))
    && (forall q, r :: q in objects && r in objects && q != r ==> objects[q].Ref() != objects[r].Ref())
  }

  lemma MirroredWith(objects: map<nat, RequestObject>, heap: map<nat, Request>, sms: string, calls: string,
                     r: nat, o: RequestObject, q: Request)
    requires Mirrored(objects, heap, sms, calls) && r !in objects
    requires Mirrors(o, q, sms, calls) && o.Ref() !in Refs(objects)
    ensures Mirrored(objects[r := o], heap[r := q], sms, calls)
    ensures Refs(objects[r := o]) == Refs(objects) + {o.Ref()}
  {
    var objects', heap' := objects[r := o], heap[r := q];
    assert forall k :: k in objects ==> objects[k].Ref() in Refs(objects);
    hide Mirrors;
    forall k | k in objects' ensures Mirrors(objects'[k], heap'[k], sms, calls) {
      if k != r { assert Mirrors(objects[k], heap[k], sms, calls); }
    }
    forall x | x in Refs(objects) + {o.Ref()} ensures x in Refs(objects') {
      if x == o.Ref() {
        assert r in objects' && objects'[r].Ref() == x;
      } else {
        var k :| k in objects && objects[k].Ref() == x;
        assert k in objects' && objects'[k].Ref() == x;
      }
    }
  }

  lemma MirroredWithout(objects: map<nat, RequestObject>, heap: map<nat, Request>, sms: string, calls: string, r: nat)
    requires Mirrored(objects, heap, sms, calls)
    ensures Mirrored(objects - {r}, heap - {r}, sms, calls)
    ensures Refs(objects - {r}) <= Refs(objects)
  {
    hide Mirrors;
    forall k | k in objects - {r} ensures Mirrors((objects - {r})[k], (heap - {r})[k], sms, calls) {
      assert Mirrors(objects[k], heap[k], sms, calls);
    }
  }

  class ConnectionPool {
    const connectionCount: nat
    /** The socket and the producer, if any, that `Initialize` is given. */
    const socket: UdpSocket
    const producer: Producer?
    // threads
    var main: MainPc
    var workerThreads: seq<Pc>
    var stopFlag: bool
    var lock: Option<nat>
    var socketMutex: Option<nat>
    var udpSocket: UdpSocket?
    var kafkaProducer: Producer?
    var producerSet: bool
    // requests
    var objects: map<nat, RequestObject>
    var incomingRequests: seq<nat>
    // what happened so far, for the specification
    ghost const topicSms: string
    ghost const topicCalls: string
    ghost var heap: map<nat, Request>
    ghost var pushed: seq<nat>
    ghost var popped: seq<nat>
    ghost var deleted: seq<nat>
    ghost var life: map<nat, seq<Event>>
    ghost var wire: seq<Reply>
    ghost var produced: seq<(nat, Cdr)>

    function Threads(): Control
      reads `main, `workerThreads, `stopFlag, `lock, `socketMutex, `udpSocket, `producerSet
    {
      Control(main, workerThreads, stopFlag, lock, socketMutex, udpSocket != null, producerSet)
    }

    ghost function Requests(): Store
      reads `heap, `incomingRequests, `pushed, `popped, `deleted, `life, `wire, `produced
    {
      Store(heap, incomingRequests, pushed, popped, deleted, life, wire, produced, false)
    }

    /** The state of the transition system; `i` is the receive loop's part of it. */
    ghost function View(i: Intake): State
      reads this
    {
      State(connectionCount, producer != null, Threads(), i, Requests())
    }

    ghost function Objects(): set<object>
      reads `objects
    {
      Refs(objects)
    }

    ghost function Footprint(): set<object>
      reads `objects
    {
      {socket} + (if producer == null then {} else {producer}) + Objects()
    }

    /** The objects are the live requests, apart from everything else. */
    ghost predicate ObjectsReflect()
      reads `objects, `heap, Objects()
    {
      && Mirrored(objects, heap, topicSms, topicCalls)
      && this !in Objects() && socket !in Objects() && producer !in Objects()
    }

    /** The datagrams that left are those of the specification. */
    ghost predicate SocketReflects()
      reads `wire, socket
    {
      socket.attempts == OnWire(wire)
    }

    /** And so are the messages. */
    ghost predicate ProducerReflects()
      reads `produced, producer
    {
      producer != null ==> producer.messages == Messages(produced, topicSms, topicCalls)
    }

    ghost predicate MembersReflect()
      reads `udpSocket, `kafkaProducer, `producerSet
    {
      (udpSocket == null || udpSocket == socket) && (producerSet ==> kafkaProducer == producer)
    }

    ghost predicate Reflects()
      reads `udpSocket, `kafkaProducer, `producerSet, `objects, `heap, `wire, `produced, Footprint()
    {
      MembersReflect() && ObjectsReflect() && SocketReflects() && ProducerReflects()
    }

    ghost predicate Valid(i: Intake)
      reads this, Footprint()
    {
      PoolInv(View(i)) && Reflects()
    }

    lemma ReflectsParts()
      ensures Reflects() <==> MembersReflect() && ObjectsReflect() && SocketReflects() && ProducerReflects()
    {
    }

    lemma ObjectsReflectParts()
      ensures ObjectsReflect() <==>
                && Mirrored(objects, heap, topicSms, topicCalls)
                && this !in Objects() && socket !in Objects() && producer !in Objects()
      ensures Objects() == Refs(objects)
    {
    }

    lemma RequestsParts()
      ensures Requests() == Store(heap, incomingRequests, pushed, popped, deleted, life, wire, produced, false)
    {
    }

    lemma OutsideFootprint(x: object)
      requires x != socket && x != producer && forall k :: k in objects ==> objects[k].Ref() != x
      ensures x !in Footprint()
    {
    }

    lemma FootprintParts()
      ensures Footprint() == {socket} + (if producer == null then {} else {producer}) + Objects()
    {
    }

    /** What the caller of an object must know. */
    lemma InObjects(r: nat)
      requires ObjectsReflect() && r in heap
      ensures r in objects && Mirrors(objects[r], heap[r], topicSms, topicCalls)
      ensures forall k :: k in objects ==> objects[k].Ref() in Objects() && allocated(objects[k].Ref())
      ensures forall k :: k in objects && k != r ==> objects[k].Ref() != objects[r].Ref()
    {
    }

    lemma KeysAgree()
      requires ObjectsReflect()
      ensures objects.Keys == heap.Keys
    {
    }

    lemma ObjectsApart()
      requires ObjectsReflect()
      ensures this !in Objects() && socket !in Objects() && producer !in Objects()
      ensures forall k :: k in objects ==> objects[k].Ref() in Objects() && allocated(objects[k].Ref())
    {
    }

    twostate lemma ObjectsUntouched()
      requires old(ObjectsReflect()) && objects == old(objects) && heap == old(heap)
      requires forall k :: k in objects ==> unchanged(objects[k].Ref())
      ensures ObjectsReflect()
    {
      hide Mirrors;
      forall k | k in objects ensures Mirrors(objects[k], heap[k], topicSms, topicCalls) {
        assert objects[k].Ref() in Objects() && old(Mirrors(objects[k], heap[k], topicSms, topicCalls));
      }
    }

    /** One object changed, and its value with it. */
    twostate lemma ObjectChanged(r: nat)
      requires old(ObjectsReflect()) && objects == old(objects) && r in objects
      requires heap.Keys == old(heap).Keys && forall k :: k in heap && k != r ==> heap[k] == old(heap[k])
      requires Mirrors(objects[r], heap[r], topicSms, topicCalls)
      requires forall k :: k in objects && k != r ==> unchanged(objects[k].Ref())
      ensures ObjectsReflect()
    {
      forall k | k in objects ensures Mirrors(objects[k], heap[k], topicSms, topicCalls) {
        if k != r { assert old(Mirrors(objects[k], heap[k], topicSms, topicCalls)); }
      }
      hide Mirrors;
    }

    constructor (n: nat, socket: UdpSocket, producer: Producer?, ghost topicSms: string, ghost topicCalls: string)
      requires socket.attempts == [] && (producer != null ==> producer.messages == [])
      ensures Valid(Intake(0, [], [])) && View(Intake(0, [], [])) == Initial(n, producer != null)
      ensures this.socket == socket && this.producer == producer && objects == map[]
      ensures this.topicSms == topicSms && this.topicCalls == topicCalls
    {
      connectionCount, this.socket, this.producer := n, socket, producer;
      this.topicSms, this.topicCalls := topicSms, topicCalls;
      main, workerThreads, stopFlag, lock, socketMutex := Spawn, [], false, None, None;
      udpSocket, kafkaProducer, producerSet := null, null, false;
      objects, incomingRequests := map[], [];
      heap, pushed, popped, deleted, life, wire, produced := map[], [], [], [], map[], [], [];
      new;
      InitiallyHolds(n, producer != null);
      hide PoolInv;
    }

    // ---- what reaches the objects, the socket and the producer ----

    method Insert(r: nat, clientRequest: RequestObject)
      requires Reflects() && r !in objects
      requires clientRequest.Topic() == if clientRequest.View().params.Sms? then topicSms else topicCalls
      requires clientRequest.Ref() != this && clientRequest.Ref() !in Footprint()
      modifies `objects, `heap
      ensures Reflects() && objects == old(objects)[r := clientRequest]
      ensures Threads() == old(Threads())
      ensures Requests() == old(Requests()).(heap := old(Requests()).heap[r := old(clientRequest.View())])
    {
      hide *;
      ghost var q := clientRequest.View();
      FootprintParts();
      ReflectsParts();
      ObjectsReflectParts();
      RequestsParts();
      MirrorsIf(clientRequest, q, topicSms, topicCalls);
      MirroredWith(objects, heap, topicSms, topicCalls, r, clientRequest, q);
      objects, heap := objects[r := clientRequest], heap[r := q];
      ObjectsReflectParts();
      ReflectsParts();
      RequestsParts();
    }

    method Drop(r: nat)
      requires Reflects()
      modifies `objects, `heap
      ensures Reflects() && objects == old(objects) - {r} && heap == old(heap) - {r}
    {
      MirroredWithout(objects, heap, topicSms, topicCalls, r);
      hide SocketReflects, ProducerReflects, Mirrored, Refs;
      objects, heap := objects - {r}, heap - {r};
    }

    /** The database call succeeds: the object takes its outputs. */
    method Complete(r: nat, db: DbReply)
      requires Reflects() && r in heap
      modifies `heap, Objects()
      ensures Reflects() && heap == old(heap)[r := Processed(old(heap)[r], db)]
    {
      hide *;
      ReflectsParts();
      ObjectsApart();
      InObjects(r);
      KindKept(heap[r], db);
      MirrorsMeans(objects[r], heap[r], topicSms, topicCalls);
      objects[r].Process(db);
      heap := heap[r := Processed(heap[r], db)];
      MirrorsIf(objects[r], heap[r], topicSms, topicCalls);
      ObjectChanged(r);
      ReflectsParts();
    }

    /** The database call throws: the object takes the error. */
    method Fail(r: nat, errorText: string)
      requires Reflects() && r in heap
      modifies `heap, Objects()
      ensures Reflects() && heap == old(heap)[r := FailedRequest(old(heap)[r], errorText)]
    {
      hide *;
      FailureKeepsParams(heap[r], errorText);
      ReflectsParts();
      ObjectsApart();
      InObjects(r);
      MirrorsMeans(objects[r], heap[r], topicSms, topicCalls);
      objects[r].RecordFailure(errorText);
      heap := heap[r := FailedRequest(heap[r], errorText)];
      MirrorsIf(objects[r], heap[r], topicSms, topicCalls);
      ObjectChanged(r);
      ReflectsParts();
    }

    /** One datagram leaves: the response of the request, to its client. */
    method Respond(r: nat, sendOk: bool) returns (sent: bool)
      requires Reflects() && r in heap && ResponseFits(heap[r]) && udpSocket != null
      modifies `wire, socket
      ensures Reflects() && sent == sendOk && wire == old(wire) + [Answer(r, heap[r])]
    {
      ObjectsApart();
      InObjects(r);
      AnswerLeaves(r, heap[r]);
      assert udpSocket == socket;
      hide ObjectsReflect, MembersReflect, ProducerReflects, Objects, Footprint, OnWire, Messages;
      hide ResponseFits, Sendable, ReplyBytes, Destination;
      OnWireSnoc(wire, Answer(r, heap[r]));
      var errorDescr;
      sent, errorDescr := objects[r].SendResultToClient(udpSocket, sendOk);
      wire := wire + [Answer(r, heap[r])];
      ObjectsUntouched();
    }

    /** At most one message leaves: the record of the request, to the topic of its kind. */
    method Log(r: nat, sent: bool)
      requires Reflects() && r in heap && producerSet
      modifies `produced, producer
      ensures Reflects()
      ensures produced == old(produced) + if producer != null && KafkaRecord(heap[r], sent).Some?
                                          then [(r, KafkaRecord(heap[r], sent).value)] else []
    {
      ObjectsApart();
      InObjects(r);
      TopicOfRecord(heap[r], sent, topicSms, topicCalls);
      assert kafkaProducer == producer;
      hide ObjectsReflect, MembersReflect, SocketReflects, Objects, Footprint, Messages, KafkaRecord, CdrBytes, TopicOf;
      if kafkaProducer != null {
        objects[r].LogToKafka(sent, kafkaProducer);
        ghost var cdr := KafkaRecord(heap[r], sent);
        if cdr.Some? {
          MessagesSnoc(produced, r, cdr.value, topicSms, topicCalls);
          produced := produced + [(r, cdr.value)];
        }
      }
      ObjectsUntouched();
    }

    /** The main thread has sent a reply of its own. */
    ghost method Replied(reply: Reply)
      requires MembersReflect() && ObjectsReflect() && ProducerReflects()
      requires socket.attempts == OnWire(wire) + [Datagram(Destination(reply), ReplyBytes(reply))]
      modifies `wire
      ensures Reflects() && Threads() == old(Threads())
      ensures Requests() == old(Requests()).(wire := old(Requests()).wire + [reply])
    {
      hide MembersReflect, ObjectsReflect, ProducerReflects, OnWire, ReplyBytes, Destination;
      ObjectsApart();
      OnWireSnoc(wire, reply);
      wire := wire + [reply];
    }

    // ---- the lines ----

    /** Lines 52-58 of `Initialize`. */
    method InitializeLine(ghost i: Intake)
      requires Enabled(View(i), MainStep) && Initializing(main)
      requires Valid(i)
      modifies `main, `workerThreads, `udpSocket, `kafkaProducer, `producerSet
      ensures Valid(i) && View(i) == Step(old(View(i)), MainStep)
    {
      hide PoolInv, ObjectsReflect, SocketReflects, ProducerReflects;
      ObjectsApart();
      InvKept(View(i), MainStep);
      match main
      case Spawn =>
        if |workerThreads| < connectionCount {
          workerThreads := workerThreads + [CheckStop];
        } else {
          main := SetSocket;
        }
      case SetSocket => udpSocket, main := socket, SetProducer;
      case SetProducer => kafkaProducer, producerSet, main := producer, true, SetInitialized;
      case SetInitialized => main := Serve;
    }

    /** Lines 18-27, the destructor. */
    method DestructorLine(ghost i: Intake)
      requires Enabled(View(i), MainStep) && !Initializing(main)
      requires Valid(i)
      modifies `main, `workerThreads, `stopFlag
      ensures Valid(i) && View(i) == Step(old(View(i)), MainStep)
    {
      hide PoolInv, ObjectsReflect, SocketReflects, ProducerReflects;
      ObjectsApart();
      InvKept(View(i), MainStep);
      match main
      case SetStop => stopFlag, main := true, NotifyAll;
      case NotifyAll => workerThreads, main := WakeAll(workerThreads), Join(0);
      case Join(k) => main := if k < |workerThreads| then Join(k + 1) else FreeDbs(0);
      case FreeDbs(k) => main := if k < |workerThreads| then FreeDbs(k + 1) else Done;
    }

    /**
     Line 65 of `PushRequest`. Pushing the request made from an accepted packet completes the dispatch of
     that packet: it is queued behind all others, alive and in nobody's hands, and a notification is due.
     */
    method PushRequest(r: nat, clientRequest: RequestObject, ghost i: Intake, ghost view: AttrMap, ghost now: int64)
      requires Valid(i) && Enabled(View(i), Dispatch(view, now, clientRequest.View().out)) && r == |i.received|
      requires Classify(i.inbox[0].kind, view).Accepted?
      requires clientRequest.View() == NewRequest(i.sender, i.inbox[0].num, now, Classify(i.inbox[0].kind, view).params,
                                                  clientRequest.View().out)
      requires clientRequest.Topic() == if clientRequest.View().params.Sms? then topicSms else topicCalls
      requires clientRequest.Ref() != this && clientRequest.Ref() !in Footprint()
      modifies this
      ensures Valid(Taken(i))
      ensures View(Taken(i)) == Step(old(View(i)), Dispatch(view, now, old(clientRequest.View().out)))
      ensures main.Notify? && objects == old(objects)[r := clientRequest]
      ensures QueueAlive(old(Requests())) && QueueAlive(Requests())
      ensures Contents(Requests()) == Contents(old(Requests())) + [Waiting(old(clientRequest.View()))]
    {
      hide *;
      ghost var s, q := View(i), clientRequest.View();
      ghost var a := Dispatch(view, now, q.out);
      ValidParts(i);
      ViewParts(i);
      HasPacket(s, view, now, q.out);
      KeysAgree();
      InvKept(s, a);
      DispatchStep(s, view, now, q.out);
      AllQueuedAlive(s);
      Insert(r, clientRequest);
      Enqueue(r);
      PushGrows(s.store, Requests(), r, q);
      ViewParts(Taken(i));
      MakesValid(Taken(i));
    }

    lemma ValidParts(i: Intake)
      requires Valid(i)
      ensures PoolInv(View(i)) && Reflects() && ObjectsReflect()
      ensures Requests().heap == heap
    {
      hide PoolInv, ObjectsReflect;
    }

    lemma MakesValid(i: Intake)
      requires PoolInv(View(i)) && Reflects()
      ensures Valid(i)
    {
      hide PoolInv;
    }

    lemma ViewParts(i: Intake)
      ensures View(i) == State(connectionCount, producer != null, Threads(), i, Requests())
    {
    }

    lemma ThreadsParts()
      ensures Threads().workers == workerThreads && Threads().main == main
    {
    }

    /** The queue entry, the empty history, and the notification due. */
    method Enqueue(r: nat)
      requires Reflects()
      modifies `main, `incomingRequests, `pushed, `life
      ensures Reflects()
      ensures Threads() == old(Threads()).(main := Notify) && main.Notify?
      ensures var m := old(Requests());
              Requests() == m.(queue := m.queue + [r], pushed := m.pushed + [r], life := m.life[r := []])
    {
      hide SocketReflects, ProducerReflects, ObjectsReflect, MembersReflect;
      ObjectsApart();
      life, pushed := life[r := []], pushed + [r];
      incomingRequests := incomingRequests + [r];
      main := Notify;
    }

    /** The next line of the main thread outside the receive loop. */
    method MainThreadLine(ghost i: Intake)
      requires Valid(i) && Enabled(View(i), MainStep)
      modifies `main, `workerThreads, `stopFlag, `udpSocket, `kafkaProducer, `producerSet
      ensures Valid(i) && View(i) == Step(old(View(i)), MainStep)
    {
      hide *;
      StillInitializing(main);
      if main == Spawn || main == SetSocket || main == SetProducer || main == SetInitialized {
        InitializeLine(i);
      } else {
        DestructorLine(i);
      }
    }

    /** The server leaves its receive loop; the destructor follows. */
    method StopServing(ghost i: Intake)
      requires Valid(i) && Enabled(View(i), Shutdown)
      modifies `main, `workerThreads
      ensures Valid(i) && View(i) == Step(old(View(i)), Shutdown)
    {
      hide PoolInv, MainEnabled, WorkerEnabled, IsView, ObjectsReflect, SocketReflects, ProducerReflects;
      ObjectsApart();
      InvKept(View(i), Shutdown);
      main := SetStop;
    }

    /** Line 66, conditionVar.notify_one(): `target` is the sleeper it wakes, if there is one. */
    method NotifyOne(target: nat, ghost i: Intake)
      requires Valid(i) && Enabled(View(i), PoolModel.NotifyOne(target))
      modifies `main, `workerThreads
      ensures Valid(i) && View(i) == Step(old(View(i)), PoolModel.NotifyOne(target))
    {
      hide PoolInv, MainEnabled, WorkerEnabled, IsView, ObjectsReflect, SocketReflects, ProducerReflects;
      ObjectsApart();
      InvKept(View(i), PoolModel.NotifyOne(target));
      if target < |workerThreads| && workerThreads[target].Asleep? {
        workerThreads := workerThreads[target := Relock];
      }
      main := Serve;
    }

    /** conditionVar.wait() may return without a notify. */
    method WakeSpuriously(w: nat, ghost i: Intake)
      requires Valid(i) && Enabled(View(i), Wake(w))
      modifies `main, `workerThreads
      ensures Valid(i) && View(i) == Step(old(View(i)), Wake(w))
    {
      hide PoolInv, MainEnabled, WorkerEnabled, IsView, ObjectsReflect, SocketReflects, ProducerReflects;
      ObjectsApart();
      InvKept(View(i), Wake(w));
      workerThreads := workerThreads[w := Relock];
    }

    /** Lines 73-76 of `WorkerThread`: the stop flag, and the wait on the condition variable. */
    method WaitLine(w: nat, c: Choice, ghost i: Intake)
      requires Enabled(View(i), Work(w, c)) && w < |workerThreads|
      requires InWait(workerThreads[w])
      requires Valid(i)
      modifies `workerThreads, `lock
      ensures Reflects() && View(i) == Step(old(View(i)), Work(w, c))
    {
      hide PoolInv, Faults, Step, Ready, Processed, KafkaRecord, FailedRequest;
      hide ObjectsReflect, SocketReflects, ProducerReflects;
      ObjectsApart();
      InHand(View(i), w);
      WorkerThreadStep(View(i), w, c);
      hide Enabled, WorkerEnabled;
      match workerThreads[w]
      case CheckStop => workerThreads := workerThreads[w := if stopFlag then Exited else TakeLock];
      case TakeLock => lock, workerThreads := Some(w), workerThreads[w := EnterWait];
      case EnterWait => lock, workerThreads := None, workerThreads[w := Asleep];
      case Relock => lock, workerThreads := Some(w), workerThreads[w := Unlock];
      case Unlock => lock, workerThreads := None, workerThreads[w := Pop];
    }

    /** Line 79 of `WorkerThread`. */
    method PopLine(w: nat, c: Choice, ghost i: Intake)
      requires Enabled(View(i), Work(w, c)) && w < |workerThreads|
      requires workerThreads[w].Pop?
      requires Valid(i)
      modifies `workerThreads, `incomingRequests, `popped
      ensures Reflects() && View(i) == Step(old(View(i)), Work(w, c))
    {
      hide PoolInv, Faults, Step, Ready, Processed, KafkaRecord, FailedRequest;
      hide ObjectsReflect, SocketReflects, ProducerReflects;
      ObjectsApart();
      InHand(View(i), w);
      WorkerThreadStep(View(i), w, c);
      hide Enabled, WorkerEnabled;
      if incomingRequests == [] {
        workerThreads := workerThreads[w := CheckStop];
      } else {
        var request := incomingRequests[0];
        incomingRequests, popped := incomingRequests[1..], popped + [request];
        workerThreads := workerThreads[w := AgeCheck(request)];
      }
    }

    /** Lines 80-89 of `WorkerThread`. */
    method AgeLine(w: nat, c: Choice, ghost i: Intake)
      requires Enabled(View(i), Work(w, c)) && w < |workerThreads|
      requires workerThreads[w].AgeCheck?
      requires Valid(i)
      modifies `workerThreads, `life
      ensures Reflects() && View(i) == Step(old(View(i)), Work(w, c))
      ensures var request := old(workerThreads[w]).r;
              && request in heap && w < |workerThreads|
              && workerThreads[w] == if c.now - heap[request].accepted < 3_000_000_000
                                     then Process(request) else Delete(request)
    {
      hide PoolInv, Faults, Step, Ready, Processed, KafkaRecord, FailedRequest;
      hide ObjectsReflect, SocketReflects, ProducerReflects;
      ObjectsApart();
      InHand(View(i), w);
      WorkerThreadStep(View(i), w, c);
      hide Enabled, WorkerEnabled;
      var request := workerThreads[w].r;
      InObjects(request);
      var requestAge := c.now - objects[request].View().accepted;
      if requestAge < MAX_REQUEST_AGE {
        life := life[request := life[request] + [Started(requestAge)]];
        workerThreads := workerThreads[w := Process(request)];
      } else {
        life := life[request := life[request] + [Discarded(requestAge)]];
        workerThreads := workerThreads[w := Delete(request)];
      }
    }

    /** Line 90 of `WorkerThread`. */
    method DeleteLine(w: nat, c: Choice, ghost i: Intake)
      requires Enabled(View(i), Work(w, c)) && w < |workerThreads|
      requires workerThreads[w].Delete?
      requires Valid(i)
      modifies `workerThreads, `objects, `heap, `deleted, `life
      ensures Reflects() && View(i) == Step(old(View(i)), Work(w, c))
      ensures forall k :: k in objects ==> k in old(objects) && objects[k] == old(objects[k])
    {
      hide PoolInv, Faults, Step, Ready, Processed, KafkaRecord, FailedRequest;
      hide ObjectsReflect, SocketReflects, ProducerReflects;
      ObjectsApart();
      InHand(View(i), w);
      WorkerThreadStep(View(i), w, c);
      hide Enabled, WorkerEnabled;
      var request := workerThreads[w].r;
      Drop(request);
      ObjectsApart();
      deleted := deleted + [request];
      life := life[request := life[request] + [Freed]];
      workerThreads := workerThreads[w := Pop];
    }

    /** Lines 103 and 115-119 of `ProcessRequest`: the call on the request object, and the exception handler. */
    method ProcessRequestLine(w: nat, c: Choice, ghost i: Intake)
      requires Enabled(View(i), Work(w, c)) && w < |workerThreads|
      requires InProcessRequest(workerThreads[w])
      requires Valid(i)
      modifies `workerThreads, `heap, `life, Objects()
      ensures Reflects() && View(i) == Step(old(View(i)), Work(w, c))
    {
      hide PoolInv, Faults, Step, Ready, Processed, KafkaRecord, FailedRequest;
      hide ObjectsReflect, SocketReflects, ProducerReflects;
      ObjectsApart();
      InHand(View(i), w);
      ProcessRequestStep(View(i), w, c);
      hide Enabled, WorkerEnabled;
      var request := workerThreads[w].r;
      if workerThreads[w].Process? {
        if c.db.Some? {
          Complete(request, c.db.value);
          life := life[request := life[request] + [Returned(heap[request])]];
          workerThreads := workerThreads[w := TakeSocket(request)];
        } else {
          workerThreads := workerThreads[w := Recover(request)];
        }
      } else {
        Fail(request, c.errorText);
        life := life[request := life[request] + [Failed(RESULT_CODE_DB_EXCEPTION)]];
        workerThreads := workerThreads[w := Delete(request)];
      }
      ObjectsApart();
    }

    /** Lines 129 and 131 of `SendResponseAndLogToKafka`. */
    method SocketLine(w: nat, c: Choice, ghost i: Intake)
      requires Enabled(View(i), Work(w, c)) && w < |workerThreads|
      requires (workerThreads[w].TakeSocket? || workerThreads[w].ReleaseSocket?)
      requires Valid(i)
      modifies `workerThreads, `socketMutex
      ensures Reflects() && View(i) == Step(old(View(i)), Work(w, c))
    {
      hide PoolInv, Faults, Step, Ready, Processed, KafkaRecord, FailedRequest;
      hide ObjectsReflect, SocketReflects, ProducerReflects;
      ObjectsApart();
      InHand(View(i), w);
      SendResponseStep(View(i), w, c);
      hide Enabled, WorkerEnabled;
      match workerThreads[w]
      case TakeSocket(request) => socketMutex, workerThreads := Some(w), workerThreads[w := Send(request)];
      case ReleaseSocket(request, sent) =>
        socketMutex, workerThreads := None, workerThreads[w := LogKafka(request, sent)];
    }

    /** Line 130 of `SendResponseAndLogToKafka`: the response fits its buffer, as the history of the request shows. */
    method SendLine(w: nat, c: Choice, ghost i: Intake)
      requires Enabled(View(i), Work(w, c)) && w < |workerThreads|
      requires workerThreads[w].Send?
      requires Valid(i)
      modifies `workerThreads, `life, `wire, socket
      ensures Reflects() && View(i) == Step(old(View(i)), Work(w, c))
    {
      hide PoolInv, Faults, Step, Ready, Processed, KafkaRecord, FailedRequest;
      hide ObjectsReflect, SocketReflects, ProducerReflects, ResponseFits;
      ObjectsApart();
      InHand(View(i), w);
      SendResponseStep(View(i), w, c);
      ReadyToSend(View(i), w);
      hide Enabled, WorkerEnabled;
      var request := workerThreads[w].r;
      var sent := Respond(request, c.sendOk);
      life := life[request := life[request] + [SendTried(sent)]];
      workerThreads := workerThreads[w := ReleaseSocket(request, sent)];
      ObjectsApart();
    }

    /** Lines 141-143 of `SendResponseAndLogToKafka`. */
    method LogLine(w: nat, c: Choice, ghost i: Intake)
      requires Enabled(View(i), Work(w, c)) && w < |workerThreads|
      requires workerThreads[w].LogKafka?
      requires Valid(i)
      modifies `workerThreads, `life, `produced, producer
      ensures Reflects() && View(i) == Step(old(View(i)), Work(w, c))
    {
      hide PoolInv, Faults, Step, Ready, Processed, KafkaRecord, FailedRequest;
      hide ObjectsReflect, SocketReflects, ProducerReflects;
      ObjectsApart();
      InHand(View(i), w);
      SendResponseStep(View(i), w, c);
      ProducerIsSet(View(i), w);
      hide Enabled, WorkerEnabled;
      var request, sent := workerThreads[w].r, workerThreads[w].sent;
      Log(request, sent);
      if producer != null {
        ghost var cdr := KafkaRecord(heap[request], sent);
        if cdr.Some? {
          life := life[request := life[request] + [Logged(cdr.value)]];
        }
      }
      workerThreads := workerThreads[w := Delete(request)];
      ObjectsApart();
    }

    /** The next line of a worker, whichever function it is in. */
    method WorkerLine(w: nat, c: Choice, ghost i: Intake)
      requires Valid(i) && Enabled(View(i), Work(w, c))
      modifies this, Footprint()
      ensures Valid(i) && View(i) == Step(old(View(i)), Work(w, c))
      ensures forall k :: k in objects ==> k in old(objects) && objects[k] == old(objects[k])
    {
      hide *;
      ViewParts(i);
      EnabledWorker(View(i), w, c);
      ThreadsParts();
      var pc := workerThreads[w];
      if InWait(pc) || pc.Pop? {
        IdleLine(w, c, i);
      } else if pc.AgeCheck? || pc.Delete? {
        EndLine(w, c, i);
      } else if InProcessRequest(pc) || pc.LogKafka? {
        ObjectLine(w, c, i);
      } else {
        ResponseLine(w, c, i);
      }
    }

    /** A line of a worker without a request. */
    method IdleLine(w: nat, c: Choice, ghost i: Intake)
      requires Valid(i) && Enabled(View(i), Work(w, c)) && w < |workerThreads|
      requires (InWait(workerThreads[w]) || workerThreads[w].Pop?)
      modifies this, Footprint()
      ensures Valid(i) && View(i) == Step(old(View(i)), Work(w, c))
      ensures forall k :: k in objects ==> k in old(objects) && objects[k] == old(objects[k])
    {
      hide *;
      ValidParts(i);
      ObjectsApart();
      FootprintParts();
      InvKept(View(i), Work(w, c));
      if InWait(workerThreads[w]) {
        WaitLine(w, c, i);
      } else {
        PopLine(w, c, i);
      }
      MakesValid(i);
    }

    /** The first or the last line that handles a request. */
    method EndLine(w: nat, c: Choice, ghost i: Intake)
      requires Valid(i) && Enabled(View(i), Work(w, c)) && w < |workerThreads|
      requires (workerThreads[w].AgeCheck? || workerThreads[w].Delete?)
      modifies this, Footprint()
      ensures Valid(i) && View(i) == Step(old(View(i)), Work(w, c))
      ensures forall k :: k in objects ==> k in old(objects) && objects[k] == old(objects[k])
    {
      hide *;
      ValidParts(i);
      ObjectsApart();
      FootprintParts();
      InvKept(View(i), Work(w, c));
      if workerThreads[w].AgeCheck? {
        AgeLine(w, c, i);
      } else {
        DeleteLine(w, c, i);
      }
      MakesValid(i);
    }

    /** A line that calls the database or Kafka. */
    method ObjectLine(w: nat, c: Choice, ghost i: Intake)
      requires Valid(i) && Enabled(View(i), Work(w, c)) && w < |workerThreads|
      requires (InProcessRequest(workerThreads[w]) || workerThreads[w].LogKafka?)
      modifies this, Footprint()
      ensures Valid(i) && View(i) == Step(old(View(i)), Work(w, c))
      ensures forall k :: k in objects ==> k in old(objects) && objects[k] == old(objects[k])
    {
      hide *;
      ValidParts(i);
      ObjectsApart();
      FootprintParts();
      InvKept(View(i), Work(w, c));
      if InProcessRequest(workerThreads[w]) {
        ProcessRequestLine(w, c, i);
      } else {
        LogLine(w, c, i);
      }
      MakesValid(i);
    }

    /** A line around the send. */
    method ResponseLine(w: nat, c: Choice, ghost i: Intake)
      requires Valid(i) && Enabled(View(i), Work(w, c)) && w < |workerThreads|
      requires (workerThreads[w].TakeSocket? || workerThreads[w].Send? || workerThreads[w].ReleaseSocket?)
      modifies this, Footprint()
      ensures Valid(i) && View(i) == Step(old(View(i)), Work(w, c))
      ensures forall k :: k in objects ==> k in old(objects) && objects[k] == old(objects[k])
    {
      hide *;
      ValidParts(i);
      ObjectsApart();
      FootprintParts();
      InvKept(View(i), Work(w, c));
      if workerThreads[w].Send? {
        SendLine(w, c, i);
      } else {
        SocketLine(w, c, i);
      }
      MakesValid(i);
    }

  }

  predicate InWait(pc: Pc) {
    pc.CheckStop? || pc.TakeLock? || pc.EnterWait? || pc.Relock? || pc.Unlock?
  }

  predicate InProcessRequest(pc: Pc) { pc.Process? || pc.Recover? }

  predicate InSendResponse(pc: Pc) { pc.TakeSocket? || OwnsSocket(pc) || pc.LogKafka? }

  // ---- the steps, case by case ----

  function WithLife(m: Store, r: nat, e: Event): Store
    requires r in m.life
  {
    m.(life := m.life[r := m.life[r] + [e]])
  }

  /** A worker moves on, with the mutexes and the requests as given. */
  function Moved(s: State, w: nat, pc: Pc, lock: Option<nat>, socketMutex: Option<nat>, m: Store): State
    requires w < |s.ctl.workers|
  {
    s.(ctl := s.ctl.(workers := s.ctl.workers[w := pc], lock := lock, socketMutex := socketMutex), store := m)
  }

  ghost predicate Ready(s: State, w: nat) {
    && WorkerEnabled(s.ctl, w) && !Faults(s, w)
    && (Holds(s.ctl.workers[w]) ==> s.ctl.workers[w].r in s.store.heap && s.ctl.workers[w].r in s.store.life)
  }

  lemma WorkerThreadStep(s: State, w: nat, c: Choice)
    requires Ready(s, w)
    ensures var s', m, ctl := Step(s, Work(w, c)), s.store, s.ctl;
            match s.ctl.workers[w]
            case CheckStop => s' == Moved(s, w, if ctl.stopFlag then Exited else TakeLock, ctl.lock, ctl.socketMutex, m)
            case TakeLock => s' == Moved(s, w, EnterWait, Some(w), ctl.socketMutex, m)
            case EnterWait => s' == Moved(s, w, Asleep, None, ctl.socketMutex, m)
            case Relock => s' == Moved(s, w, Unlock, Some(w), ctl.socketMutex, m)
            case Unlock => s' == Moved(s, w, Pop, None, ctl.socketMutex, m)
            case Pop =>
              s' == if m.queue == [] then Moved(s, w, CheckStop, ctl.lock, ctl.socketMutex, m)
                    else Moved(s, w, AgeCheck(m.queue[0]), ctl.lock, ctl.socketMutex,
                               m.(queue := m.queue[1..], popped := m.popped + [m.queue[0]]))
            case AgeCheck(r) =>
              var age := c.now - m.heap[r].accepted;
              s' == if age < MAX_REQUEST_AGE
                    then Moved(s, w, Process(r), ctl.lock, ctl.socketMutex, WithLife(m, r, Started(age)))
                    else Moved(s, w, Delete(r), ctl.lock, ctl.socketMutex, WithLife(m, r, Discarded(age)))
            case Delete(r) =>
              s' == Moved(s, w, Pop, ctl.lock, ctl.socketMutex,
                          WithLife(m.(heap := m.heap - {r}, deleted := m.deleted + [r]), r, Freed))
            case _ => true
  {
    hide Faults, Processed, KafkaRecord, FailedRequest;
  }

  lemma ProcessRequestStep(s: State, w: nat, c: Choice)
    requires Ready(s, w)
    ensures var s', m, ctl := Step(s, Work(w, c)), s.store, s.ctl;
            match s.ctl.workers[w]
            case Process(r) =>
              s' == if c.db.None? then Moved(s, w, Recover(r), ctl.lock, ctl.socketMutex, m)
                    else
                      var after := Processed(m.heap[r], c.db.value);
                      Moved(s, w, TakeSocket(r), ctl.lock, ctl.socketMutex,
                            WithLife(m.(heap := m.heap[r := after]), r, Returned(after)))
            case Recover(r) =>
              s' == Moved(s, w, Delete(r), ctl.lock, ctl.socketMutex,
                          WithLife(m.(heap := m.heap[r := FailedRequest(m.heap[r], c.errorText)]), r,
                                   Failed(RESULT_CODE_DB_EXCEPTION)))
            case _ => true
  {
    hide Faults, Processed, KafkaRecord;
  }

  lemma SendResponseStep(s: State, w: nat, c: Choice)
    requires Ready(s, w)
    ensures var s', m, ctl := Step(s, Work(w, c)), s.store, s.ctl;
            match s.ctl.workers[w]
            case TakeSocket(r) => s' == Moved(s, w, Send(r), ctl.lock, Some(w), m)
            case Send(r) =>
              s' == Moved(s, w, ReleaseSocket(r, c.sendOk), ctl.lock, ctl.socketMutex,
                          WithLife(m.(wire := m.wire + [Answer(r, m.heap[r])]), r, SendTried(c.sendOk)))
            case ReleaseSocket(r, sent) => s' == Moved(s, w, LogKafka(r, sent), ctl.lock, None, m)
            case LogKafka(r, sent) =>
              var cdr := KafkaRecord(m.heap[r], sent);
              s' == Moved(s, w, Delete(r), ctl.lock, ctl.socketMutex,
                          if s.kafka && cdr.Some?
                          then WithLife(m.(produced := m.produced + [(r, cdr.value)]), r, Logged(cdr.value)) else m)
            case _ => true
  {
    hide Faults, Processed, KafkaRecord, FailedRequest;
  }

  /** A worker's next line faults nowhere; the request it holds, if any, is alive and has a history. */
  lemma InHand(s: State, w: nat)
    requires PoolInv(s) && WorkerEnabled(s.ctl, w)
    ensures Ready(s, w)
    ensures Holds(s.ctl.workers[w]) ==> s.ctl.workers[w].r in s.store.heap && s.ctl.workers[w].r in s.store.life
  {
    hide PoolInv, ControlInv, OwnershipInv;
    Parts(s);
    NoFault(s, w);
    if Holds(s.ctl.workers[w]) {
      Exclusive(s, w);
      HasHistory(s, s.ctl.workers[w].r);
    }
  }

  lemma HasHistory(s: State, r: nat)
    requires OwnershipInv(s) && r in s.store.pushed
    ensures r in s.store.life
  {
  }

  /** What a worker about to send must know: its response fits the buffer. */
  lemma ReadyToSend(s: State, w: nat)
    requires PoolInv(s) && w < |s.ctl.workers| && s.ctl.workers[w].Send?
    ensures s.ctl.workers[w].r in s.store.heap && ResponseFits(s.store.heap[s.ctl.workers[w].r]) && s.ctl.socketSet
  {
    hide *;
    Parts(s);
    SendReady(s, w);
    PlainResponseFits(s.store.heap[s.ctl.workers[w].r]);
    SocketIsSet(s, w);
  }

  lemma SocketIsSet(s: State, w: nat)
    requires PoolInv(s) && w < |s.ctl.workers| && s.ctl.workers[w].Send?
    ensures s.ctl.socketSet
  {
    assert WorkerEnabled(s.ctl, w);
    hide PoolInv, ControlInv, OwnershipInv;
    Parts(s);
    NoFault(s, w);
  }

  lemma ProducerIsSet(s: State, w: nat)
    requires PoolInv(s) && w < |s.ctl.workers| && s.ctl.workers[w].LogKafka?
    ensures s.ctl.producerSet
  {
    assert WorkerEnabled(s.ctl, w);
    hide PoolInv, ControlInv, OwnershipInv;
    Parts(s);
    NoFault(s, w);
  }

  lemma AllQueuedAlive(s: State)
    requires PoolInv(s)
    ensures forall r :: r in s.store.queue ==> r < |s.intake.received| && r in s.store.heap
    ensures |s.intake.received| !in s.store.heap
  {
    hide *;
    Parts(s);
    QueuedBelow(s);
    NextIsUnused(s);
  }

  lemma StillInitializing(main: MainPc)
    ensures Initializing(main) <==> main == Spawn || main == SetSocket || main == SetProducer || main == SetInitialized
  {
  }

  lemma EnabledWorker(s: State, w: nat, c: Choice)
    requires Enabled(s, Work(w, c))
    ensures w < |s.ctl.workers|
    ensures var pc := s.ctl.workers[w];
            && (InSendResponse(pc) ==> pc.TakeSocket? || pc.Send? || pc.ReleaseSocket? || pc.LogKafka?)
            && (InWait(pc) || InProcessRequest(pc) || InSendResponse(pc) || pc.Pop? || pc.AgeCheck? || pc.Delete?)
  {
  }

  lemma HasPacket(s: State, view: AttrMap, now: int64, unset: Outputs)
    requires Enabled(s, Dispatch(view, now, unset))
    ensures s.intake.inbox != []
  {
    hide IsView;
  }

  lemma NextIsUnused(s: State)
    requires OwnershipInv(s)
    ensures |s.intake.received| !in s.store.heap
  {
    var r := |s.intake.received|;
    assert r !in s.store.pushed;
    assert multiset(s.store.pushed) == multiset(s.store.popped) + multiset(s.store.queue);
    assert r !in multiset(s.store.pushed);
    hide HeldIds;
  }

  /** No outcome of a database call turns a request into one of another kind. */
  lemma KindKept(q: Request, db: DbReply)
    ensures Processed(q, db).params.Sms? == q.params.Sms?
  {
  }

  lemma FailureKeepsParams(q: Request, errorText: string)
    ensures FailedRequest(q, errorText).params == q.params
  {
  }

  lemma AnswerLeaves(r: nat, q: Request)
    requires ResponseFits(q)
    ensures Datagram(q.addr, Sendable(q)) == Datagram(Destination(Answer(r, q)), ReplyBytes(Answer(r, q)))
  {
  }

  lemma TopicOfRecord(q: Request, sent: bool, sms: string, calls: string)
    ensures KafkaRecord(q, sent).Some? ==>
              TopicOf(KafkaRecord(q, sent).value, sms, calls) == if q.params.Sms? then sms else calls
  {
  }

  lemma OnWireSnoc(wire: seq<Reply>, reply: Reply)
    ensures OnWire(wire + [reply]) == OnWire(wire) + [Datagram(Destination(reply), ReplyBytes(reply))]
  {
  }

  lemma MessagesSnoc(produced: seq<(nat, Cdr)>, r: nat, c: Cdr, sms: string, calls: string)
    ensures Messages(produced + [(r, c)], sms, calls)
         == Messages(produced, sms, calls) + [(TopicOf(c, sms, calls), CdrBytes(c))]
  {
  }
}
