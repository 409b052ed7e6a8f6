/** The receive side (Server.cpp): cutting datagrams, answering or rejecting packets, queueing requests. */
module Servers {
  import opened Bytes
  import opened Text
  import opened PsPacket
  import opened ClientRequests
  import opened Requests
  import opened Framing
  import opened SmsRequests
  import opened CamelRequests
  import opened CallFinishRequests
  import opened RequestObjects
  import opened PoolModel
  import opened PoolReplies
  import opened PoolSafety
  import opened PoolArrivals
  import opened Dispatching
  import opened ConnectionPools

  class Server {
    const udpSocket: UdpSocket
    const connectionPool: ConnectionPool
    const kafkaTopicSms: string
    const kafkaTopicCalls: string
    var packetNum: nat                 // packets taken up so far
    // the datagram being processed: its sender and its packets still ahead; the packets taken up
    ghost var sender: Addr
    ghost var inbox: seq<Parsed>
    ghost var received: seq<Packet>

    ghost function Taking(): Intake
      reads `sender, `inbox, `received
    {
      Intake(sender, inbox, received)
    }

    ghost function View(): State
      reads `sender, `inbox, `received, connectionPool
    {
      connectionPool.View(Taking())
    }

    ghost predicate Valid()
      reads this, connectionPool, connectionPool.Footprint()
    {
      connectionPool.Valid(Taking()) && Wired() && packetNum == |received|
    }

    constructor (n: nat, socket: UdpSocket, producer: Producer?, topicSms: string, topicCalls: string)
      requires socket.attempts == [] && (producer != null ==> producer.messages == [])
      ensures Valid() && View() == Initial(n, producer != null) && inbox == [] && sender == 0
      ensures udpSocket == socket && connectionPool.producer == producer
      ensures kafkaTopicSms == topicSms && kafkaTopicCalls == topicCalls
      ensures fresh(connectionPool) && connectionPool.objects == map[]
    {
      udpSocket, kafkaTopicSms, kafkaTopicCalls := socket, topicSms, topicCalls;
      connectionPool := new ConnectionPool(n, socket, producer, topicSms, topicCalls);
      packetNum := 0;
      sender, inbox, received := 0, [], [];
      new;
      hide PoolInv;
    }

    method SendNotAcceptedResponse(senderAddr: Addr, requestNum: uint32, errDescr: string)
      requires |errDescr| <= 200
      modifies udpSocket
      ensures udpSocket.attempts
           == old(udpSocket.attempts) + [Datagram(senderAddr, RejectionBytes(requestNum, errDescr))]
    {
      var buffer := new byte[RESPONSE_BUFFER](_ => 0);
      var res := Init(buffer, requestNum, VALIDATEEX_RESP);
      var errorCodeN := Int32Bytes(BAD_REQUEST);
      ghost var result := Attr(PS_RESULT, errorCodeN);
      AttrsLength1(result);
      assert [] + [result] == [result];
      var len := AddAttr(buffer, PS_RESULT, errorCodeN, requestNum, VALIDATEEX_RESP, []);
      RejectionFits(requestNum, errDescr);
      assert [result] + [Attr(PS_DESCR, Octets(errDescr))] == RejectionAttrs(errDescr);
      len := AddAttr(buffer, PS_DESCR, Octets(errDescr), requestNum, VALIDATEEX_RESP, [result]);
      udpSocket.SendTo(senderAddr, buffer[..len]);
    }

    method SendIAmAliveResponse(senderAddr: Addr, requestNum: uint32)
      modifies udpSocket
      ensures udpSocket.attempts == old(udpSocket.attempts) + [Datagram(senderAddr, AliveBytes(requestNum))]
    {
      var buffer := new byte[RESPONSE_BUFFER](_ => 0);
      var res := Init(buffer, requestNum, I_AM_ALIVE);
      assert |AliveBytes(requestNum)| == HEADER_SIZE;
      udpSocket.SendTo(senderAddr, buffer[..HEADER_SIZE]);
    }

    /** A new request of the class the packet type names, validated. */
    method NewClientRequest(kind: uint16, num: uint32, attrs: AttrMap, senderAddr: Addr, now: int64)
      returns (ok: bool, request: RequestObject, errorDescr: string)
      requires kind == VALIDATEEX_REQ || kind == QUOTA_REQ || kind == CALL_FINISH_INFO
      ensures fresh(request.Ref())
      ensures ok <==> Validate(kind, attrs).Success?
      ensures !ok ==> errorDescr == Validate(kind, attrs).error
      ensures ok ==>
                && request.View() == NewRequest(senderAddr, num, now, Validate(kind, attrs).value, request.View().out)
                && request.Topic() == if request.View().params.Sms? then kafkaTopicSms else kafkaTopicCalls
    {
      hide ValidateSms, ValidateCamel, ValidateFinish;
      if kind == VALIDATEEX_REQ {
        var r := new SmsRequest(senderAddr, kafkaTopicSms, now);
        ok, errorDescr := r.ValidateAndSetParams(num, attrs, "");
        request := SmsObject(r);
      } else if kind == QUOTA_REQ {
        var r := new CamelRequest(senderAddr, kafkaTopicCalls, now);
        ok, errorDescr := r.ValidateAndSetParams(num, attrs, "");
        request := CamelObject(r);
      } else {
        var r := new CallFinishRequest(senderAddr, kafkaTopicCalls, now);
        ok, errorDescr := r.ValidateAndSetParams(num, attrs, "");
        request := FinishObject(r);
      }
    }

    /** A reply of the main thread has left: the dispatch of its packet is complete. */
    ghost method RepliedDirectly(view: AttrMap, now: int64, reply: Reply)
      requires PoolInv(View()) && Enabled(View(), Dispatch(view, now, NO_OUTPUTS)) && inbox != []
      requires Step(View(), Dispatch(view, now, NO_OUTPUTS)) == Answering(View(), reply)
      requires connectionPool.MembersReflect() && connectionPool.ObjectsReflect() && connectionPool.ProducerReflects()
      requires Wired() && packetNum == |received| + 1
      requires udpSocket.attempts == OnWire(connectionPool.wire) + [Datagram(Destination(reply), ReplyBytes(reply))]
      modifies `inbox, `received, connectionPool`wire
      ensures Valid() && View() == Step(old(View()), Dispatch(view, now, NO_OUTPUTS)) && inbox == old(inbox)[1..]
    {
      hide *;
      WiredParts();
      ViewParts();
      NotAnObject();
      connectionPool.FootprintParts();
      connectionPool.ObjectsApart();
      AnsweringParts(View(), reply);
      InvKept(View(), Dispatch(view, now, NO_OUTPUTS));
      TakenParts(Taking());
      connectionPool.Replied(reply);
      connectionPool.ViewParts(Taken(Taking()));
      connectionPool.MakesValid(Taken(Taking()));
      NotAnObject();
      received, inbox := received + [Packet(sender, inbox[0].num, inbox[0].kind, inbox[0].attrs)], inbox[1..];
      ViewParts();
      MakesValid();
    }

    /** Server and pool belong together. */
    ghost predicate Wired() {
      && connectionPool.socket == udpSocket
      && connectionPool.topicSms == kafkaTopicSms && connectionPool.topicCalls == kafkaTopicCalls
    }

    lemma WiredParts()
      ensures Wired() <==>
                && connectionPool.socket == udpSocket
                && connectionPool.topicSms == kafkaTopicSms && connectionPool.topicCalls == kafkaTopicCalls
    {
    }

    /** The server is none of the request objects. */
    lemma NotAnObject()
      ensures this !in connectionPool.Footprint()
    {
    }

    lemma ViewParts()
      ensures View() == State(connectionPool.connectionCount, connectionPool.producer != null, connectionPool.Threads(),
                              Taking(), connectionPool.Requests())
      ensures View() == connectionPool.View(Taking()) && Taking() == Intake(sender, inbox, received)
    {
      connectionPool.ViewParts(Taking());
    }

    lemma ValidParts()
      requires Valid()
      ensures connectionPool.Valid(Taking()) && PoolInv(View()) && Wired() && packetNum == |received|
      ensures connectionPool.MembersReflect() && connectionPool.ObjectsReflect()
      ensures connectionPool.SocketReflects() && connectionPool.ProducerReflects()
      ensures udpSocket.attempts == OnWire(connectionPool.wire)
      ensures connectionPool !in connectionPool.Objects() && udpSocket !in connectionPool.Objects()
    {
      hide PoolInv, Mirrored;
    }

    lemma ValidMeans()
      ensures Valid() <==> connectionPool.Valid(Taking()) && Wired() && packetNum == |received|
      ensures View() == connectionPool.View(Taking()) && Taking() == Intake(sender, inbox, received)
    {
      hide ConnectionPool.Valid;
    }

    lemma MakesValid()
      requires connectionPool.Valid(Taking()) && Wired() && packetNum == |received|
      ensures Valid()
    {
      hide ConnectionPool.Valid;
    }

    /** Lines 161-198: one packet, up to and with its push. */
    method ProcessPacket(p: Parsed, view: AttrMap, senderAddr: Addr, now: int64)
      returns (pushed: bool, ghost unset: Outputs)
      requires Valid() && Enabled(View(), Dispatch(view, now, NO_OUTPUTS))
      requires inbox != [] && p == inbox[0] && senderAddr == sender
      modifies `packetNum, `inbox, `received, connectionPool, udpSocket
      ensures Valid() && Enabled(old(View()), Dispatch(view, now, unset))
      ensures View() == Step(old(View()), Dispatch(view, now, unset))
      ensures pushed <==> Classify(p.kind, view).Accepted?
      ensures inbox == old(inbox)[1..] && sender == old(sender)
      ensures forall k :: k in connectionPool.objects ==>
                (k in old(connectionPool.objects) && connectionPool.objects[k] == old(connectionPool.objects[k]))
                || fresh(connectionPool.objects[k].Ref())
    {
      hide *;
      ghost var s, objects := View(), connectionPool.Objects();
      ViewParts();
      ValidParts();
      WiredParts();
      NotAnObject();
      connectionPool.FootprintParts();
      connectionPool.ObjectsApart();
      Outcomes(p.kind, view);
      DispatchStep(s, view, now, NO_OUTPUTS);
      unset, pushed := NO_OUTPUTS, false;
      var requestNum := packetNum;
      if !Supported(p.kind) {
        RejectionTexts(s, view, now);
        SendNotAcceptedResponse(senderAddr, p.num, "Unsupported request type " + Decimal(p.kind));
        connectionPool.ObjectsUntouched();
        packetNum := packetNum + 1;
        LeavesAs(Rejection(requestNum, senderAddr, p.num, "Unsupported request type " + Decimal(p.kind)));
        AnsweringParts(s, Rejection(requestNum, senderAddr, p.num, "Unsupported request type " + Decimal(p.kind)));
        RepliedDirectly(view, now,
                        Rejection(requestNum, senderAddr, p.num, "Unsupported request type " + Decimal(p.kind)));
        return;
      }
      if p.kind == ARE_Y_ALIVE {
        SendIAmAliveResponse(senderAddr, p.num);
        connectionPool.ObjectsUntouched();
        packetNum := packetNum + 1;
        LeavesAs(AliveReply(requestNum, senderAddr, p.num));
        AnsweringParts(s, AliveReply(requestNum, senderAddr, p.num));
        RepliedDirectly(view, now, AliveReply(requestNum, senderAddr, p.num));
        return;
      }
      var ok, request, errorDescr := NewClientRequest(p.kind, p.num, view, senderAddr, now);
      if !ok {
        RejectionTexts(s, view, now);
        SendNotAcceptedResponse(senderAddr, p.num, errorDescr);
        connectionPool.ObjectsUntouched();
        packetNum := packetNum + 1;
        LeavesAs(Rejection(requestNum, senderAddr, p.num, errorDescr));
        AnsweringParts(s, Rejection(requestNum, senderAddr, p.num, errorDescr));
        RepliedDirectly(view, now, Rejection(requestNum, senderAddr, p.num, errorDescr));
        return;
      }
      unset, pushed := request.View().out, true;
      AnyOutputs(s, view, now, unset);
      NewRequestParts(senderAddr, p.num, now, Validate(p.kind, view).value, unset);
      connectionPool.ObjectsUntouched();
      connectionPool.ReflectsParts();
      connectionPool.MakesValid(Taking());
      connectionPool.OutsideFootprint(request.Ref());
      connectionPool.PushRequest(requestNum, request, Taking(), view, now);
      NotAnObject();
      packetNum := packetNum + 1;
      TakenParts(Taking());
      received, inbox := received + [Packet(sender, inbox[0].num, inbox[0].kind, inbox[0].attrs)], inbox[1..];
      ViewParts();
      MakesValid();
    }

    /**
     One packet at the front of the buffer: its length, and one reply or one request queued; or -1, and
     nothing happened. `steps` are the steps of the transition system this amounts to.
     */
    method ProcessNextRequestFromBuffer(buffer: seq<byte>, senderAddr: Addr, now: int64)
      returns (requestLen: int, view: AttrMap, ghost steps: seq<Action>)
      requires Valid() && connectionPool.main.Serve? && sender == senderAddr && inbox == Packets(buffer)
      modifies `packetNum, `inbox, `received, connectionPool, udpSocket
      ensures Valid() && connectionPool.main.Serve?
      ensures PoolModel.Valid(old(View()), steps) && View() == Exec(old(View()), steps) && NoArrivals(steps)
      ensures QueueAlive(old(View()).store) && QueueAlive(View().store)
      ensures Parse(buffer).None? ==>
                && requestLen == -1 && steps == []
                && View() == old(View()) && inbox == old(inbox) && udpSocket.attempts == old(udpSocket.attempts)
      ensures Parse(buffer).Some? ==>
                var p := Parse(buffer).value;
                && requestLen == p.len && IsView(p.attrs, view) && inbox == Packets(buffer[p.len..])
                && udpSocket.attempts == old(udpSocket.attempts) + DirectReply(p, view, senderAddr)
                && Contents(View().store) == Contents(old(View()).store) + Push(p, view, senderAddr, now)
      ensures forall k :: k in connectionPool.objects ==>
                (k in old(connectionPool.objects) && connectionPool.objects[k] == old(connectionPool.objects[k]))
                || fresh(connectionPool.objects[k].Ref())
    {
      hide *;
      ghost var s := View();
      view, steps := map[], [];
      NoSteps(s);
      ViewParts();
      ValidParts();
      Parts(s);
      connectionPool.ThreadsParts();
      connectionPool.RequestsParts();
      AllQueuedAlive(s);
      QueueAliveIf(s.store);
      var parsed := Parse(buffer);
      if parsed.None? {
        return -1, view, steps;
      }
      var p := parsed.value;
      PacketsStep(buffer);
      view := AttributesOf(p.attrs);
      requestLen := p.len;
      CanDispatch(s, view, now, NO_OUTPUTS);
      ghost var unset;
      var pushed;
      pushed, unset := ProcessPacket(p, view, senderAddr, now);
      ghost var a := Dispatch(view, now, unset);
      DispatchAgrees(s, view, now, unset);
      AfterDispatch(s, view, now, unset);
      Extend(s, steps, a);
      steps := steps + [a];
      ViewParts();
      ValidParts();
      connectionPool.ThreadsParts();
      connectionPool.RequestsParts();
      if pushed {
        ghost var s1 := View();
        var target: nat := 0;
        if w :| 0 <= w < |connectionPool.workerThreads| && connectionPool.workerThreads[w].Asleep? {
          target := w;
        }
        AsleepMeans(s1.ctl);
        CanNotify(s1, target);
        connectionPool.NotifyOne(target, Taking());
        ViewParts();
        MakesValid();
        AfterNotify(s1, target);
        Extend(s, steps, NotifyOne(target));
        steps := steps + [NotifyOne(target)];
        connectionPool.ThreadsParts();
        connectionPool.RequestsParts();
      }
    }

    /**
     Dispatches exactly the leading run of packets that parse, in order and once each. `views` are the
     attribute maps the packets were read through, `clock(k)` the time packet `k` was taken up.
     */
    method ProcessIncomingData(buffer: seq<byte>, senderAddr: Addr, clock: nat -> int64)
      returns (views: seq<AttrMap>, ghost steps: seq<Action>)
      requires Valid() && connectionPool.main.Serve? && inbox == []
      modifies this, connectionPool, udpSocket
      ensures Valid() && connectionPool.main.Serve? && inbox == []
      ensures PoolModel.Valid(old(View()), steps) && View() == Exec(old(View()), steps)
      ensures Arrivals(steps) == PacketsFrom(senderAddr, Packets(buffer))
      ensures ViewsOf(Packets(buffer), views)
      ensures udpSocket.attempts == old(udpSocket.attempts) + DirectReplies(Packets(buffer), views, senderAddr)
      ensures QueueAlive(old(View()).store) && QueueAlive(View().store)
      ensures Contents(View().store) == Contents(old(View()).store) + Pushes(Packets(buffer), views, senderAddr, clock)
      ensures forall k :: k in connectionPool.objects ==>
                (k in old(connectionPool.objects) && connectionPool.objects[k] == old(connectionPool.objects[k]))
                || fresh(connectionPool.objects[k].Ref())
    {
      hide *;
      ghost var s, a := View(), Receive(senderAddr, buffer);
      StartReceiving(senderAddr, buffer);
      Extend(s, [], a);
      ArrivalsOfOne(senderAddr, buffer);
      NoDispatches(senderAddr, clock);
      NoViews();
      steps := [] + [a];
      assert buffer[0..] == buffer;
      views := [];
      var bytesProcessed: nat := 0;
      ghost var done: seq<Parsed> := [];
      while bytesProcessed < |buffer|
        invariant bytesProcessed <= |buffer|
        invariant Packets(buffer) == done + Packets(buffer[bytesProcessed..])
        invariant inbox == Packets(buffer[bytesProcessed..]) && sender == senderAddr
        invariant Valid() && connectionPool.main.Serve?
        invariant PoolModel.Valid(s, steps) && View() == Exec(s, steps)
        invariant Arrivals(steps) == PacketsFrom(senderAddr, Packets(buffer))
        invariant ViewsOf(done, views) && |views| == |done|
        invariant udpSocket.attempts == old(udpSocket.attempts) + DirectReplies(done, views, senderAddr)
        invariant QueueAlive(s.store) && QueueAlive(View().store)
        invariant Contents(View().store) == Contents(s.store) + Pushes(done, views, senderAddr, clock)
        invariant forall k :: k in connectionPool.objects ==>
                (k in old(connectionPool.objects) && connectionPool.objects[k] == old(connectionPool.objects[k]))
                || fresh(connectionPool.objects[k].Ref())
        decreases |buffer| - bytesProcessed
      {
        var requestLen, view;
        ghost var more;
        requestLen, view, more := ProcessNextRequestFromBuffer(buffer[bytesProcessed..], senderAddr, clock(|views|));
        ExecConcat(s, steps, more);
        ArrivalsConcat(steps, more);
        steps := steps + more;
        if requestLen < 0 {
          break;
        }
        ghost var p := Parse(buffer[bytesProcessed..]).value;
        ParsedLength(buffer[bytesProcessed..]);
        OnePacketOn(buffer, bytesProcessed, done);
        OneDispatchOn(done, views, p, view, senderAddr, clock);
        OneViewOn(done, views, p, view);
        assert buffer[bytesProcessed..][p.len..] == buffer[bytesProcessed + p.len..];
        done, views := done + [p], views + [view];
        bytesProcessed := bytesProcessed + requestLen;
      }
      NothingParses(buffer[bytesProcessed..]);
      LastPacket(buffer, bytesProcessed, done);
    }

    /** The datagram is there; none of its packets is taken up yet. */
    ghost method StartReceiving(from: Addr, datagram: seq<byte>)
      requires Valid() && connectionPool.main.Serve? && inbox == []
      modifies `sender, `inbox
      ensures Valid() && connectionPool.main.Serve? && sender == from && inbox == Packets(datagram)
      ensures PoolModel.Valid(old(View()), []) && Exec(old(View()), []) == old(View())
      ensures Enabled(old(View()), Receive(from, datagram)) && View() == Step(old(View()), Receive(from, datagram))
      ensures QueueAlive(View().store) && View().store == old(View()).store
    {
      hide *;
      ghost var s := View();
      NoSteps(s);
      ViewParts();
      ValidParts();
      WiredParts();
      connectionPool.ValidParts(Taking());
      connectionPool.ThreadsParts();
      AllQueuedAlive(s);
      QueueAliveIf(s.store);
      CanReceive(s, from, datagram);
      InvKept(s, Receive(from, datagram));
      ghost var i := Intake(from, Packets(datagram), received);
      connectionPool.ViewParts(i);
      connectionPool.MakesValid(i);
      NotAnObject();
      sender, inbox := from, Packets(datagram);
      ViewParts();
      MakesValid();
    }
  }

  const NO_OUTPUTS := Outputs(0, 0, 0, 0, 0, 0)

  /** The state after a direct reply to the next packet. */
  ghost function Answering(s: State, reply: Reply): State
    requires s.intake.inbox != []
  {
    s.(intake := Taken(s.intake), store := s.store.(wire := s.store.wire + [reply]))
  }

  lemma NoSteps(s: State)
    ensures PoolModel.Valid(s, []) && Exec(s, []) == s && NoArrivals([])
  {
  }

  /** Nothing is received in these steps. */
  ghost predicate NoArrivals(steps: seq<Action>) {
    forall a :: a in steps ==> a.Dispatch? || a.NotifyOne?
  }

  lemma {:induction false} ArrivalsConcat(run: seq<Action>, steps: seq<Action>)
    requires NoArrivals(steps)
    ensures Arrivals(run + steps) == Arrivals(run)
  {
    if steps == [] {
      assert run + steps == run;
    } else {
      var last := |steps| - 1;
      ArrivalsConcat(run, steps[..last]);
      assert (run + steps)[..|run| + last] == run + steps[..last];
      assert steps[last] in steps;
    }
  }

  lemma ArrivalsOfOne(from: Addr, datagram: seq<byte>)
    ensures Arrivals([] + [Receive(from, datagram)]) == PacketsFrom(from, Packets(datagram))
  {
    hide Packets;
    assert [Receive(from, datagram)][..0] == [];
  }

  lemma QueueAliveIf(m: Store)
    requires forall r :: r in m.queue ==> r in m.heap
    ensures QueueAlive(m)
  {
  }

  lemma CanNotify(s: State, t: nat)
    requires s.ctl.main.Notify?
    requires AnyAsleep(s.ctl) ==> t < |s.ctl.workers| && s.ctl.workers[t].Asleep?
    ensures Enabled(s, NotifyOne(t))
  {
  }

  lemma AsleepMeans(c: Control)
    ensures AnyAsleep(c) ==> exists w :: 0 <= w < |c.workers| && c.workers[w].Asleep?
  {
  }

  lemma CanReceive(s: State, from: Addr, datagram: seq<byte>)
    requires s.ctl.main.Serve? && s.intake.inbox == []
    ensures Enabled(s, Receive(from, datagram))
    ensures Step(s, Receive(from, datagram)) == s.(intake := s.intake.(sender := from, inbox := Packets(datagram)))
  {
    hide Packets;
  }

  lemma CanDispatch(s: State, view: AttrMap, now: int64, unset: Outputs)
    requires s.ctl.main.Serve? && s.intake.inbox != [] && IsView(s.intake.inbox[0].attrs, view)
    ensures Enabled(s, Dispatch(view, now, unset))
  {
    hide IsView;
  }

  lemma AfterDispatch(s: State, view: AttrMap, now: int64, unset: Outputs)
    requires Enabled(s, Dispatch(view, now, unset)) && s.intake.inbox != []
    ensures s.ctl.main.Serve?
    ensures Step(s, Dispatch(view, now, unset)).ctl.main
         == if Classify(s.intake.inbox[0].kind, view).Accepted? then Notify else Serve
    ensures NoArrivals([] + [Dispatch(view, now, unset)])
  {
    hide Classify, IsView, Dispatched;
  }

  lemma AfterNotify(s: State, t: nat)
    requires Enabled(s, NotifyOne(t))
    ensures Step(s, NotifyOne(t)).ctl.main == Serve && Step(s, NotifyOne(t)).store == s.store
    ensures forall a :: NoArrivals([] + [a]) ==> NoArrivals([] + [a] + [NotifyOne(t)])
  {
    forall a | NoArrivals([] + [a]) ensures NoArrivals([] + [a] + [NotifyOne(t)]) {
      assert a in [] + [a];
    }
  }

  lemma NoViews()
    ensures ViewsOf([], [])
  {
  }

  lemma OneViewOn(ps: seq<Parsed>, views: seq<AttrMap>, p: Parsed, view: AttrMap)
    requires ViewsOf(ps, views) && IsView(p.attrs, view)
    ensures ViewsOf(ps + [p], views + [view]) && |ps + [p]| == |views + [view]|
  {
    hide IsView;
  }

  lemma ParsedLength(bs: seq<byte>)
    requires Parse(bs).Some?
    ensures Parse(bs).value.len <= |bs| && Parse(bs).value.len > 0
  {
  }

  /** Packets come with small attributes, so rejections are short. */
  lemma RejectionTexts(s: State, view: AttrMap, now: int64)
    requires PoolInv(s) && Enabled(s, Dispatch(view, now, NO_OUTPUTS)) && s.intake.inbox != []
    ensures Classify(s.intake.inbox[0].kind, view).Rejected? ==> |Classify(s.intake.inbox[0].kind, view).descr| <= 200
  {
    var p := s.intake.inbox[0];
    assert IsView(p.attrs, view);
    hide *;
    Parts(s);
    AheadAreSmall(s);
    if Classify(p.kind, view).Rejected? {
      RejectionShort(p.kind, p.attrs, view);
    }
  }

  lemma AheadAreSmall(s: State)
    requires ReplyInv(s) && s.intake.inbox != []
    ensures SmallData(s.intake.inbox[0].attrs)
  {
    hide Replies, SmallData;
  }

  /** The receive loop moves past a packet. */
  lemma TakenParts(i: Intake)
    requires i.inbox != []
    ensures Taken(i) == Intake(i.sender, i.inbox[1..],
                               i.received + [Packet(i.sender, i.inbox[0].num, i.inbox[0].kind, i.inbox[0].attrs)])
  {
  }

  lemma LeavesAs(reply: Reply)
    ensures reply.Rejection? ==>
              Destination(reply) == reply.to && ReplyBytes(reply) == RejectionBytes(reply.num, reply.descr)
    ensures reply.AliveReply? ==> Destination(reply) == reply.to && ReplyBytes(reply) == AliveBytes(reply.num)
  {
    hide RejectionBytes, AliveBytes;
  }

  lemma NewRequestParts(addr: Addr, num: uint32, accepted: int64, params: Params, unset: Outputs)
    ensures NewRequest(addr, num, accepted, params, unset).params == params
  {
  }

  /** Dispatching does not look at the outputs. */
  lemma AnyOutputs(s: State, view: AttrMap, now: int64, unset: Outputs)
    requires Enabled(s, Dispatch(view, now, NO_OUTPUTS))
    ensures Enabled(s, Dispatch(view, now, unset))
  {
    hide IsView;
  }

  lemma AnsweringParts(s: State, reply: Reply)
    requires s.intake.inbox != []
    ensures Answering(s, reply) == s.(intake := Taken(s.intake), store := s.store.(wire := s.store.wire + [reply]))
  {
    hide Taken;
  }

  lemma Outcomes(kind: uint16, view: AttrMap)
    ensures !Supported(kind) ==> Classify(kind, view) == Rejected("Unsupported request type " + Decimal(kind))
    ensures kind == ARE_Y_ALIVE ==> Classify(kind, view) == Alive
    ensures Supported(kind) && kind != ARE_Y_ALIVE ==>
              && (kind == VALIDATEEX_REQ || kind == QUOTA_REQ || kind == CALL_FINISH_INFO)
              && (Validate(kind, view).Failure? ==> Classify(kind, view) == Rejected(Validate(kind, view).error))
              && (Validate(kind, view).Success? ==> Classify(kind, view) == Accepted(Validate(kind, view).value))
  {
    hide Validate;
  }

  /** The loop moves on by one packet. */
  lemma OnePacketOn(buffer: seq<byte>, at: nat, done: seq<Parsed>)
    requires at < |buffer| && Parse(buffer[at..]).Some?
    requires Packets(buffer) == done + Packets(buffer[at..])
    ensures var p := Parse(buffer[at..]).value;
            at + p.len <= |buffer| && Packets(buffer) == done + [p] + Packets(buffer[at + p.len..])
  {
    hide Parse, Packets;
    var p := Parse(buffer[at..]).value;
    PacketsStep(buffer[at..]);
    assert buffer[at..][p.len..] == buffer[at + p.len..];
    assert done + ([p] + Packets(buffer[at + p.len..])) == done + [p] + Packets(buffer[at + p.len..]);
  }

  lemma PacketsStep(bs: seq<byte>)
    requires Parse(bs).Some?
    ensures Packets(bs) == [Parse(bs).value] + Packets(bs[Parse(bs).value.len..])
  {
  }

  lemma LastPacket(buffer: seq<byte>, at: nat, done: seq<Parsed>)
    requires at <= |buffer| && (at == |buffer| || Parse(buffer[at..]).None?)
    requires Packets(buffer) == done + Packets(buffer[at..])
    ensures Packets(buffer) == done
  {
    NothingParses(buffer[at..]);
    hide Parse, Packets;
  }

  lemma NothingParses(bs: seq<byte>)
    requires bs == [] || Parse(bs).None?
    ensures Packets(bs) == []
  {
  }

  /** One choice of `find`: the first attribute of each type. */
  function AttributesOf(attrs: seq<Attr>): (m: AttrMap)
    ensures IsView(attrs, m)
  {
    if attrs == [] then map[]
    else
      var rest := AttributesOf(attrs[1..]);
      assert forall a :: a in attrs ==> a == attrs[0] || a in attrs[1..];
      rest[attrs[0].kind := attrs[0].data]
  }
}
