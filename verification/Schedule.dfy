/**
 Any interleaving, executed: the threads of the server and its pool are moved one line at a time along a
 schedule. What the objects, the socket and the producer then hold is what a run of the transition system
 says.
 */
module Schedules {
  import opened Bytes
  import opened PsPacket
  import opened ClientRequests
  import opened Framing
  import opened Requests
  import SmsCdrs
  import CallCdrs
  import opened PoolModel
  import opened PoolSafety
  import opened PoolRecords
  import opened Dispatching
  import opened Servers

  /** The same action; the outputs a new request starts with are whatever its memory holds. */
  predicate SameChoice(done: Action, a: Action) {
    done == a || (done.Dispatch? && a.Dispatch? && done.view == a.view && done.now == a.now)
  }

  /** The run takes the actions of the schedule in order, and leaves out only those not possible in their turn. */
  ghost predicate Follows(s: State, run: seq<Action>, schedule: seq<Action>)
    requires PoolModel.Valid(s, run)
  {
    if schedule == [] then run == []
    else
      var last := |schedule| - 1;
      || (Follows(s, run, schedule[..last]) && !Enabled(Exec(s, run), schedule[last]))
      || (run != [] && SameChoice(run[|run| - 1], schedule[last]) && Follows(s, run[..|run| - 1], schedule[..last]))
  }

  lemma FollowsNext(s: State, run: seq<Action>, schedule: seq<Action>, k: nat, done: Action)
    requires PoolModel.Valid(s, run) && PoolModel.Valid(s, run + [done])
    requires k < |schedule| && Follows(s, run, schedule[..k]) && SameChoice(done, schedule[k])
    ensures Follows(s, run + [done], schedule[..k + 1])
  {
    hide Enabled, Step;
    assert schedule[..k + 1][..k] == schedule[..k] && (run + [done])[..|run|] == run;
  }

  lemma FollowsSkipped(s: State, run: seq<Action>, schedule: seq<Action>, k: nat)
    requires PoolModel.Valid(s, run)
    requires k < |schedule| && Follows(s, run, schedule[..k]) && !Enabled(Exec(s, run), schedule[k])
    ensures Follows(s, run, schedule[..k + 1])
  {
    hide Enabled, Step;
    assert schedule[..k + 1][..k] == schedule[..k];
  }

  /** As much of the state as decides what is possible. */
  function Seen(c: Control, inbox: seq<Parsed>): State {
    State(0, false, c, Intake(0, inbox, []), Store(map[], [], [], [], [], map[], [], [], false))
  }

  lemma SeenEnabled(s: State, a: Action)
    ensures Enabled(s, a) <==> Enabled(Seen(s.ctl, s.intake.inbox), a)
  {
    hide IsView, MainEnabled, WorkerEnabled, AnyAsleep;
  }

  lemma DispatchHasView(s: State, a: Action)
    requires a.Dispatch? && Enabled(s, a)
    ensures Enabled(s, Dispatch(a.view, a.now, NO_OUTPUTS)) && s.intake.inbox != []
  {
    hide IsView;
  }

  lemma ReceivePossible(s: State, from: Addr, datagram: seq<byte>)
    requires Enabled(s, Receive(from, datagram))
    ensures s.ctl.main.Serve? && s.intake.inbox == []
  {
  }

  /** A line of the main thread outside the receive loop, or a wakeup. */
  method ActOnThreads(server: Server, a: Action)
    requires server.Valid() && Enabled(server.View(), a) && (a.MainStep? || a.Shutdown? || a.NotifyOne? || a.Wake?)
    modifies server.connectionPool
    ensures server.Valid() && server.View() == Step(old(server.View()), a)
    ensures server.connectionPool.objects == old(server.connectionPool.objects)
  {
    hide *;
    server.ValidMeans();
    var pool := server.connectionPool;
    match a {
      case MainStep => pool.MainThreadLine(server.Taking());
      case Shutdown => pool.StopServing(server.Taking());
      case NotifyOne(target) => pool.NotifyOne(target, server.Taking());
      case Wake(w) => pool.WakeSpuriously(w, server.Taking());
    }
    server.ValidMeans();
  }

  /** A line of a worker. */
  method ActOnWorker(server: Server, w: nat, c: Choice)
    requires server.Valid() && Enabled(server.View(), Work(w, c))
    modifies server.connectionPool, server.connectionPool.Footprint()
    ensures server.Valid() && server.View() == Step(old(server.View()), Work(w, c))
    ensures server.sender == old(server.sender) && server.inbox == old(server.inbox)
    ensures forall k :: k in server.connectionPool.objects ==>
              k in old(server.connectionPool.objects)
              && server.connectionPool.objects[k] == old(server.connectionPool.objects[k])
  {
    hide *;
    server.ValidMeans();
    server.NotAnObject();
    server.connectionPool.WorkerLine(w, c, server.Taking());
    server.ValidMeans();
  }

  /** One action: one line of one thread, or what the environment does. */
  method Act(server: Server, a: Action, from: Addr, inbox: seq<Parsed>)
    returns (from': Addr, inbox': seq<Parsed>, ghost done: Action)
    requires server.Valid() && Enabled(server.View(), a) && from == server.sender && inbox == server.inbox
    modifies server, server.connectionPool, server.connectionPool.Footprint()
    ensures server.Valid() && from' == server.sender && inbox' == server.inbox && SameChoice(done, a)
    ensures Enabled(old(server.View()), done) && server.View() == Step(old(server.View()), done)
    ensures forall k :: k in server.connectionPool.objects ==>
              (k in old(server.connectionPool.objects)
               && server.connectionPool.objects[k] == old(server.connectionPool.objects[k]))
              || fresh(server.connectionPool.objects[k].Ref())
  {
    hide *;
    SameAction(a);
    ghost var s := server.View();
    from', inbox', done := from, inbox, a;
    server.ViewParts();
    match a
    case Receive(sender, datagram) =>
      ReceivePossible(s, sender, datagram);
      server.connectionPool.ThreadsParts();
      server.StartReceiving(sender, datagram);
      from', inbox' := sender, Packets(datagram);
    case Dispatch(view, now, _) =>
      DispatchHasView(s, a);
      server.ValidParts();
      server.WiredParts();
      server.connectionPool.FootprintParts();
      ghost var unset;
      var pushed;
      pushed, unset := server.ProcessPacket(inbox[0], view, from, now);
      inbox', done := inbox[1..], Dispatch(view, now, unset);
      SameDispatch(done, a);
    case Work(w, c) => ActOnWorker(server, w, c);
    case _ => ActOnThreads(server, a);
  }

  lemma SameAction(a: Action)
    ensures SameChoice(a, a)
  {
  }

  lemma SameDispatch(done: Action, a: Action)
    requires done.Dispatch? && a.Dispatch? && done.view == a.view && done.now == a.now
    ensures SameChoice(done, a)
  {
  }

  /**
   Executing a schedule. Whatever it is, the state of the objects is that of a run, so every theorem about
   runs holds of them; and the bytes that left are the replies and the records of that run, each datagram to
   its address and each message to its topic.
   */
  method RunSchedule(n: nat, socket: UdpSocket, producer: Producer?, topicSms: string, topicCalls: string,
                     schedule: seq<Action>)
    returns (server: Server, ghost run: seq<Action>)
    requires socket.attempts == [] && (producer != null ==> producer.messages == [])
    modifies socket, producer
    ensures fresh(server) && server.Valid() && server.udpSocket == socket
    ensures Run(n, producer != null, run, server.View())
    ensures PoolModel.Valid(Initial(n, producer != null), run) && Follows(Initial(n, producer != null), run, schedule)
    ensures socket.attempts == OnWire(server.View().store.wire)
    ensures producer != null ==> producer.messages == Messages(server.View().store.produced, topicSms, topicCalls)
    ensures var wire := server.View().store.wire;
            |socket.attempts| == |wire| && forall i :: 0 <= i < |wire| ==>
              socket.attempts[i] == match wire[i]
                                    case AliveReply(_, to, num) => Datagram(to, AliveBytes(num))
                                    case Rejection(_, to, num, descr) => Datagram(to, RejectionBytes(num, descr))
                                    case Answer(_, q) => Datagram(q.addr, ResponseBytes(q))
    ensures var produced := server.View().store.produced;
            producer != null ==>
              |producer.messages| == |produced| && forall i :: 0 <= i < |produced| ==>
                producer.messages[i] == match produced[i].1
                                        case SmsMessage(r) => (topicSms, SmsCdrs.Encoded(r))
                                        case CallMessage(r) => (topicCalls, CallCdrs.Encoded(r))
  {
    hide *;
    ghost var init := Initial(n, producer != null);
    server := new Server(n, socket, producer, topicSms, topicCalls);
    var from: Addr, inbox: seq<Parsed> := 0, [];
    run := [];
    NoSteps(init);
    FollowsNothing(init, schedule);
    for k := 0 to |schedule|
      invariant fresh(server) && fresh(server.connectionPool) && server.Valid()
      invariant server.udpSocket == socket && server.connectionPool.producer == producer
      invariant server.kafkaTopicSms == topicSms && server.kafkaTopicCalls == topicCalls
      invariant from == server.sender && inbox == server.inbox
      invariant forall r :: r in server.connectionPool.objects ==> fresh(server.connectionPool.objects[r].Ref())
      invariant PoolModel.Valid(init, run) && server.View() == Exec(init, run)
      invariant Follows(init, run, schedule[..k])
    {
      var a := schedule[k];
      server.ViewParts();
      server.connectionPool.ThreadsParts();
      SeenEnabled(server.View(), a);
      if Enabled(Seen(server.connectionPool.Threads(), inbox), a) {
        ghost var done;
        server.ValidParts();
        server.WiredParts();
        OwnFootprint(server);
        assert forall x :: x in server.connectionPool.Footprint() ==> x == socket || x == producer || fresh(x);
        from, inbox, done := Act(server, a, from, inbox);
        Extend(init, run, done);
        FollowsNext(init, run, schedule, k, done);
        run := run + [done];
      } else {
        FollowsSkipped(init, run, schedule, k);
      }
    }
    assert schedule[..|schedule|] == schedule;
    IsRun(n, producer != null, run);
    WhatLeft(server);
    DatagramsAre(server.View().store.wire);
    MessagesAre(server.View().store.produced, topicSms, topicCalls);
  }

  lemma DatagramsAre(wire: seq<Reply>)
    ensures |OnWire(wire)| == |wire|
    ensures forall i :: 0 <= i < |wire| ==>
              OnWire(wire)[i] == match wire[i]
                                 case AliveReply(_, to, num) => Datagram(to, AliveBytes(num))
                                 case Rejection(_, to, num, descr) => Datagram(to, RejectionBytes(num, descr))
                                 case Answer(_, q) => Datagram(q.addr, ResponseBytes(q))
  {
    forall i | 0 <= i < |wire| { DatagramIs(wire, i); }
    if wire == [] { assert OnWire(wire) == []; }
    hide OnWire, AliveBytes, RejectionBytes, ResponseBytes;
  }

  lemma MessagesAre(produced: seq<(nat, Cdr)>, sms: string, calls: string)
    ensures |Messages(produced, sms, calls)| == |produced|
    ensures forall i :: 0 <= i < |produced| ==>
              Messages(produced, sms, calls)[i] == match produced[i].1
                                                   case SmsMessage(r) => (sms, SmsCdrs.Encoded(r))
                                                   case CallMessage(r) => (calls, CallCdrs.Encoded(r))
  {
    forall i | 0 <= i < |produced| { MessageIs(produced, sms, calls, i); }
    if produced == [] { assert Messages(produced, sms, calls) == []; }
    hide Messages, SmsCdrs.Encoded, CallCdrs.Encoded;
  }

  lemma FollowsNothing(s: State, schedule: seq<Action>)
    ensures PoolModel.Valid(s, []) && Follows(s, [], schedule[..0])
  {
  }

  /** The footprint holds nothing but the socket, the producer and the objects. */
  lemma OwnFootprint(server: Server)
    ensures var pool := server.connectionPool;
            forall x :: x in pool.Footprint() ==>
              x == pool.socket || x == pool.producer || exists k :: k in pool.objects && pool.objects[k].Ref() == x
  {
  }

  lemma WhatLeft(server: Server)
    requires server.Valid()
    ensures server.udpSocket.attempts == OnWire(server.View().store.wire)
    ensures var producer := server.connectionPool.producer;
            producer != null ==>
              producer.messages == Messages(server.View().store.produced, server.kafkaTopicSms, server.kafkaTopicCalls)
  {
    server.ValidParts();
    server.ViewParts();
    server.connectionPool.RequestsParts();
    hide PoolInv, OnWire, Messages;
  }

  lemma IsRun(n: nat, kafka: bool, run: seq<Action>)
    requires PoolModel.Valid(Initial(n, kafka), run)
    ensures Run(n, kafka, run, Exec(Initial(n, kafka), run))
  {
  }
}
