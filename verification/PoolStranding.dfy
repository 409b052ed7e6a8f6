/** Runs in which a request is left in the queue, and in which `join` never returns, do exist. */
module PoolStranding {
  import opened Bytes
  import opened PsPacket
  import opened Requests
  import opened ClientRequests
  import opened Framing
  import opened PoolModel
  import opened PoolSafety
  import opened PoolShutdown

  /** One worker, about to read `stopFlag`, and the server ready to receive. */
  function Serving(kafka: bool): State {
    State(1, kafka, Control(Serve, [CheckStop], false, None, None, true, true), Intake(0, [], []),
          Store(map[], [], [], [], [], map[], [], [], false))
  }

  lemma StartsServing(kafka: bool) returns (run: seq<Action>)
    ensures Run(1, kafka, run, Serving(kafka))
  {
    hide Run, Valid, Exec;
    var init := Initial(1, kafka);
    run := [];
    Empty(init);
    for k := 0 to 5
      invariant Valid(init, run)
      invariant Exec(init, run) == Startup(kafka, k)
    {
      Extend(init, run, MainStep);
      run := run + [MainStep];
    }
    IsRun(1, kafka, run);
  }

  lemma Empty(s: State)
    ensures Valid(s, []) && Exec(s, []) == s
  {
  }

  lemma IsRun(n: nat, kafka: bool, run: seq<Action>)
    requires Valid(Initial(n, kafka), run)
    ensures Run(n, kafka, run, Exec(Initial(n, kafka), run))
  {
  }

  /** The states of initialization with one worker. */
  function Startup(kafka: bool, k: nat): State {
    var c := Serving(kafka).ctl;
    Serving(kafka).(ctl :=
      if k == 0 then Control(Spawn, [], false, None, None, false, false)
      else if k == 1 then Control(Spawn, [CheckStop], false, None, None, false, false)
      else if k == 2 then Control(SetSocket, [CheckStop], false, None, None, false, false)
      else if k == 3 then Control(SetProducer, [CheckStop], false, None, None, true, false)
      else if k == 4 then Control(SetInitialized, [CheckStop], false, None, None, true, true)
      else c)
  }

  lemma ReadsFlag(s: State)
    requires s.ctl.workers == [CheckStop] && !s.ctl.stopFlag
    ensures var a := Work(0, Choice(0, None, "", false));
            Enabled(s, a) && Step(s, a) == s.(ctl := s.ctl.(workers := [TakeLock]))
  {
  }

  lemma TakesLock(s: State)
    requires s.ctl.workers == [TakeLock] && s.ctl.lock == None
    ensures var a := Work(0, Choice(0, None, "", false));
            Enabled(s, a) && Step(s, a) == s.(ctl := s.ctl.(workers := [EnterWait], lock := Some(0)))
  {
  }

  lemma StartsWait(s: State)
    requires s.ctl.workers == [EnterWait]
    ensures var a := Work(0, Choice(0, None, "", false));
            Enabled(s, a) && Step(s, a) == s.(ctl := s.ctl.(workers := [Asleep], lock := None))
  {
  }

  /** The worker reads the flag, takes the lock and goes to sleep. */
  lemma GoesToSleep(n: nat, kafka: bool, run0: seq<Action>, s: State) returns (run: seq<Action>)
    requires Run(n, kafka, run0, s)
    requires s.ctl.workers == [CheckStop] && s.ctl.lock == None && !s.ctl.stopFlag
    ensures Run(n, kafka, run, s.(ctl := s.ctl.(workers := [Asleep])))
  {
    var init, a := Initial(n, kafka), Work(0, Choice(0, None, "", false));
    var t1 := s.(ctl := s.ctl.(workers := [TakeLock]));
    var t2 := s.(ctl := s.ctl.(workers := [EnterWait], lock := Some(0)));
    ReadsFlag(s);
    TakesLock(t1);
    StartsWait(t2);
    assert t2.(ctl := t2.ctl.(workers := [Asleep], lock := None)) == s.(ctl := s.ctl.(workers := [Asleep]));
    hide Valid, Exec, Initial, Step, Enabled;
    Extend(init, run0, a);
    Extend(init, run0 + [a], a);
    Extend(init, run0 + [a] + [a], a);
    run := run0 + [a] + [a] + [a];
  }

  /**
   Any acceptable first request can be stranded: it is pushed and notified while the only worker is still
   on its way to the wait, and the worker then sleeps beside a queue that is not empty.
   */
  lemma StrandingHappens(kafka: bool, from: Addr, datagram: seq<byte>, view: AttrMap, now: int64, unset: Outputs)
    returns (run: seq<Action>, s: State)
    requires |Packets(datagram)| == 1 && IsView(Packets(datagram)[0].attrs, view)
    requires Classify(Packets(datagram)[0].kind, view).Accepted?
    ensures Run(1, kafka, run, s)
    ensures s.store.queue == [0] && s.store.popped == [] && s.ctl.workers == [Asleep]
    ensures s.ctl.main.Serve? && s.intake.inbox == []
  {
    hide Packets, Classify, IsView, NewRequest;
    run := StartsServing(kafka);
    var init, s0 := Initial(1, kafka), Serving(kafka);
    var a1, a2, a3 := Receive(from, datagram), Dispatch(view, now, unset), NotifyOne(0);
    assert Enabled(s0, a1);
    var s1 := Step(s0, a1);
    assert Enabled(s1, a2);
    var s2 := Step(s1, a2);
    assert s2.ctl.main.Notify? && s2.store.queue == [0] && s2.intake.inbox == [];
    assert Enabled(s2, a3);
    s := Step(s2, a3);
    assert s.ctl == s0.ctl && s.store.queue == [0] && s.store.popped == [] && s.intake.inbox == [];
    hide Step, Enabled, Valid, Exec;
    Extend(init, run, a1);
    Extend(init, run + [a1], a2);
    Extend(init, run + [a1] + [a2], a3);
    run := run + [a1] + [a2] + [a3];
    run := GoesToSleep(1, kafka, run, s);
    s := s.(ctl := s.ctl.(workers := [Asleep]));
  }

  /** The destructor can be caught by a late sleeper. */
  lemma LateSleeperHappens(kafka: bool) returns (run: seq<Action>, s: State)
    ensures Run(1, kafka, run, s) && s.ctl.main.NotifyAll? && AnyLateSleeper(s.ctl)
    ensures !CanFinish(Step(s, MainStep))
  {
    run := StartsServing(kafka);
    var init, s0 := Initial(1, kafka), Serving(kafka);
    var a1 := Work(0, Choice(0, None, "", false));
    assert Enabled(s0, a1);
    var s1 := Step(s0, a1);
    assert Enabled(s1, Shutdown);
    var s2 := Step(s1, Shutdown);
    assert Enabled(s2, MainStep);
    s := Step(s2, MainStep);
    assert LateSleeper(s.ctl.workers[0]) && s.ctl.main.NotifyAll?;
    hide Step, Enabled, Valid, Exec, CanFinish;
    Extend(init, run, a1);
    Extend(init, run + [a1], Shutdown);
    Extend(init, run + [a1] + [Shutdown], MainStep);
    run := run + [a1] + [Shutdown] + [MainStep];
    RunInv(1, kafka, run, s);
    ShutdownCompletesIff(s);
  }

  const FINISH_ATTRS: seq<Attr> := [Attr(CAMEL_IMSI, [1]), Attr(CAMEL_CALL_REF_NUM, [2]), Attr(CAMEL_EVENT_TYPE, [3]),
                                    Attr(CAMEL_TOTAL_DURATION, [4])]
  const FINISH_VIEW: AttrMap := map[CAMEL_IMSI := [1], CAMEL_CALL_REF_NUM := [2], CAMEL_EVENT_TYPE := [3],
                                    CAMEL_TOTAL_DURATION := [4]]

  lemma FinishAccepted()
    ensures IsView(FINISH_ATTRS, FINISH_VIEW) && Classify(CALL_FINISH_INFO, FINISH_VIEW).Accepted?
  {
    NoFinishError();
    IsFinishView();
    hide FinishParams, FirstError, IsView;
  }

  lemma NoFinishError()
    ensures FirstError(FINISH_ROWS, FINISH_VIEW, 0).None?
  {
    NoErrorIff(FINISH_ROWS, FINISH_VIEW, 0);
    hide FirstError;
  }

  lemma IsFinishView()
    ensures IsView(FINISH_ATTRS, FINISH_VIEW)
  {
    assert FINISH_ATTRS[0].kind == CAMEL_IMSI && FINISH_ATTRS[1].kind == CAMEL_CALL_REF_NUM;
    assert FINISH_ATTRS[2].kind == CAMEL_EVENT_TYPE && FINISH_ATTRS[3].kind == CAMEL_TOTAL_DURATION;
  }

  lemma FinishFits()
    ensures Fits(FINISH_ATTRS)
  {
    var attrs := FINISH_ATTRS;
    AttrsLength3(attrs[0], attrs[1], attrs[2]);
    AttrsBytesAppend([attrs[0], attrs[1], attrs[2]], attrs[3]);
    assert [attrs[0], attrs[1], attrs[2]] + [attrs[3]] == attrs;
  }

  /** A call finish notification with all its attributes is such a request. */
  lemma AcceptableRequestExists() returns (datagram: seq<byte>, view: AttrMap)
    ensures |Packets(datagram)| == 1 && IsView(Packets(datagram)[0].attrs, view)
    ensures Classify(Packets(datagram)[0].kind, view).Accepted?
  {
    FinishAccepted();
    FinishFits();
    hide IsView, Classify, Fits, Build, Parse, AttrsBytes, Packets;
    view := FINISH_VIEW;
    datagram := Build(7, CALL_FINISH_INFO, FINISH_ATTRS);
    OnePacket(7, CALL_FINISH_INFO, FINISH_ATTRS);
  }

  lemma OnePacket(num: uint32, kind: uint16, attrs: seq<Attr>)
    requires Fits(attrs)
    ensures var ps := Packets(Build(num, kind, attrs));
            |ps| == 1 && ps[0].kind == kind && ps[0].attrs == attrs
  {
    var bs := Build(num, kind, attrs);
    ParseBuild(num, kind, attrs, []);
    assert bs + [] == bs;
    PacketsFront(bs, []);
    assert Packets([]) == [];
  }
}
