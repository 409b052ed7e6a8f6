/**
 The worker pool as a transition system (ConnectionPool.cpp, driven by Server::Run).

 The main thread spawns the workers, publishes the socket and the producer, receives datagrams, pushes
 requests and finally runs the destructor. Any number of workers interleave with it. One action is one
 source line of one thread; everything the program cannot decide is part of the action. A step that
 touches freed memory, an unset member or a freed connection sets `fault`.
 */
module PoolModel {
  import opened Bytes
  import opened PsPacket
  import opened ClientRequests
  import opened Requests
  import opened Framing

  /** Where a worker is; the comments give the line of ConnectionPool.cpp about to run. */
  datatype Pc =
    | CheckStop                          // 73
    | TakeLock                           // 74
    | EnterWait                          // 75, owning `lock`
    | Asleep                             // 75, on the condition variable
    | Relock                             // 75, notified
    | Unlock                             // 76, owning `lock`
    | Pop                                // 79
    | AgeCheck(r: nat)                   // 80
    | Process(r: nat)                    // 103
    | Recover(r: nat)                    // 115
    | TakeSocket(r: nat)                 // 129
    | Send(r: nat)                       // 130, owning `socketMutex`
    | ReleaseSocket(r: nat, sent: bool)  // 131, owning `socketMutex`
    | LogKafka(r: nat, sent: bool)       // 141
    | Delete(r: nat)                     // 90
    | Exited

  /** Where the main thread is. */
  datatype MainPc =
    | Spawn | SetSocket | SetProducer | SetInitialized     // Initialize, 52-58
    | Serve                                                // Server::Run
    | Notify                                               // PushRequest, 66
    | SetStop | NotifyAll | Join(i: nat) | FreeDbs(i: nat) // ~ConnectionPool, 18-27
    | Done

  /** What happened to one pushed request. */
  datatype Event =
    | Discarded(age: int)
    | Started(age: int)
    | Returned(after: Request)
    | Failed(code: int8)
    | SendTried(ok: bool)
    | Logged(cdr: Cdr)
    | Freed

  datatype Packet = Packet(from: Addr, num: uint32, kind: uint16, attrs: seq<Attr>)

  /** A datagram handed to `sendto`; `r` numbers the packet being answered. */
  datatype Reply =
    | AliveReply(r: nat, to: Addr, num: uint32)
    | Rejection(r: nat, to: Addr, num: uint32, descr: string)
    | Answer(r: nat, request: Request)

  /** The threads: program counters, flags and mutexes. */
  datatype Control = Control(
    main: MainPc,
    workers: seq<Pc>,
    stopFlag: bool,
    lock: Option<nat>,
    socketMutex: Option<nat>,
    socketSet: bool,
    producerSet: bool)

  /** The receive loop: the datagram being processed, its packets still to dispatch, the packets dispatched. */
  datatype Intake = Intake(sender: Addr, inbox: seq<Parsed>, received: seq<Packet>)

  /** The request objects and what became of them; a request is named by the number of its packet. */
  datatype Store = Store(
    heap: map<nat, Request>,      // the live objects
    queue: seq<nat>,
    pushed: seq<nat>,
    popped: seq<nat>,
    deleted: seq<nat>,
    life: map<nat, seq<Event>>,
    wire: seq<Reply>,
    produced: seq<(nat, Cdr)>,    // records handed to Kafka, with the requests they are about
    fault: bool)

  /** `n` is config.connectionCount; `kafka` says whether there is a Kafka producer. */
  datatype State = State(n: nat, kafka: bool, ctl: Control, intake: Intake, store: Store)

  /** What the environment decides for one worker step: the clock, the database (None: it throws), the socket. */
  datatype Choice = Choice(now: int64, db: Option<DbReply>, errorText: string, sendOk: bool)

  datatype Action =
    | MainStep
    | Receive(from: Addr, datagram: seq<byte>)
    | Dispatch(view: AttrMap, now: int64, unset: Outputs)
    | Shutdown
    | NotifyOne(target: nat)
    | Wake(w: nat)                       // spurious
    | Work(w: nat, choice: Choice)

  const MAX_REQUEST_AGE := 3_000_000_000

  function Initial(n: nat, kafka: bool): State {
    State(n, kafka, Control(Spawn, [], false, None, None, false, false), Intake(0, [], []),
          Store(map[], [], [], [], [], map[], [], [], false))
  }

  // ---- classes of program points ----

  predicate Holds(pc: Pc) {
    pc.AgeCheck? || pc.Process? || pc.Recover? || pc.TakeSocket? || pc.Send? || pc.ReleaseSocket?
    || pc.LogKafka? || pc.Delete?
  }

  predicate OwnsLock(pc: Pc) { pc.EnterWait? || pc.Unlock? }

  predicate OwnsSocket(pc: Pc) { pc.Send? || pc.ReleaseSocket? }

  /** Between waking and the next empty pop. */
  predicate Draining(pc: Pc) { pc.Relock? || pc.Unlock? || pc.Pop? || Holds(pc) }

  predicate AnyAsleep(c: Control) { exists w :: 0 <= w < |c.workers| && c.workers[w].Asleep? }

  predicate AnyDraining(c: Control) { exists w :: 0 <= w < |c.workers| && Draining(c.workers[w]) }

  predicate AllExited(c: Control) { forall w :: 0 <= w < |c.workers| ==> c.workers[w].Exited? }

  /** The destructor has freed the worker's database connection. */
  predicate DbFreed(c: Control, w: nat) {
    c.main.Done? || (c.main.FreeDbs? && w < c.main.i)
  }

  // ---- steps ----

  predicate MainEnabled(c: Control) {
    && !c.main.Serve? && !c.main.Notify? && !c.main.Done?
    && (c.main.Join? && c.main.i < |c.workers| ==> c.workers[c.main.i].Exited?)
  }

  predicate WorkerEnabled(c: Control, w: nat) {
    && w < |c.workers| && !c.workers[w].Asleep? && !c.workers[w].Exited?
    && (c.workers[w].TakeLock? || c.workers[w].Relock? ==> c.lock.None?)
    && (c.workers[w].TakeSocket? ==> c.socketMutex.None?)
  }

  predicate Enabled(s: State, a: Action) {
    match a
    case MainStep => MainEnabled(s.ctl)
    case Receive(_, _) => s.ctl.main.Serve? && s.intake.inbox == []
    case Dispatch(view, _, _) =>
      s.ctl.main.Serve? && s.intake.inbox != [] && IsView(s.intake.inbox[0].attrs, view)
    case Shutdown => s.ctl.main.Serve? && s.intake.inbox == []
    case NotifyOne(t) =>
      s.ctl.main.Notify? && (AnyAsleep(s.ctl) ==> t < |s.ctl.workers| && s.ctl.workers[t].Asleep?)
    case Wake(w) => w < |s.ctl.workers| && s.ctl.workers[w].Asleep?
    case Work(w, _) => WorkerEnabled(s.ctl, w)
  }

  function Step(s: State, a: Action): State
    requires Enabled(s, a)
  {
    match a
    case MainStep => s.(ctl := StepMain(s.ctl, s.n))
    case Receive(from, datagram) => s.(intake := s.intake.(sender := from, inbox := Packets(datagram)))
    case Dispatch(view, now, unset) =>
      s.(ctl := s.ctl.(main := if OutcomeOf(s.intake, view).Accepted? then Notify else Serve),
         intake := Taken(s.intake),
         store := Dispatched(s.store, s.intake, view, now, unset))
    case Shutdown => s.(ctl := s.ctl.(main := SetStop))
    case NotifyOne(t) => s.(ctl := Notified(s.ctl, t).(main := Serve))
    case Wake(w) => s.(ctl := Notified(s.ctl, w))
    case Work(w, c) => s.(ctl := StepWorker(s, w, c), store := Effect(s, w, c))
  }

  /** Waking worker `w`, if it sleeps. */
  function Notified(c: Control, w: nat): Control {
    if w < |c.workers| && c.workers[w].Asleep? then c.(workers := c.workers[w := Relock]) else c
  }

  function WakeAll(workers: seq<Pc>): (r: seq<Pc>)
    ensures |r| == |workers|
    ensures forall w :: 0 <= w < |r| ==> r[w] == if workers[w].Asleep? then Relock else workers[w]
  {
    seq(|workers|, w requires 0 <= w < |workers| => if workers[w].Asleep? then Relock else workers[w])
  }

  function StepMain(c: Control, n: nat): Control
    requires MainEnabled(c)
  {
    match c.main
    case Spawn => if |c.workers| < n then c.(workers := c.workers + [CheckStop]) else c.(main := SetSocket)
    case SetSocket => c.(socketSet := true, main := SetProducer)
    case SetProducer => c.(producerSet := true, main := SetInitialized)
    case SetInitialized => c.(main := Serve)
    case SetStop => c.(stopFlag := true, main := NotifyAll)
    case NotifyAll => c.(workers := WakeAll(c.workers), main := Join(0))
    case Join(i) => c.(main := if i < |c.workers| then Join(i + 1) else FreeDbs(0))
    case FreeDbs(i) => c.(main := if i < |c.workers| then FreeDbs(i + 1) else Done)
  }

  // ProcessNextRequestFromBuffer on the next packet, up to the push itself.

  function OutcomeOf(i: Intake, view: AttrMap): Outcome
    requires i.inbox != []
  {
    Classify(i.inbox[0].kind, view)
  }

  function Taken(i: Intake): Intake
    requires i.inbox != []
  {
    var p := i.inbox[0];
    i.(inbox := i.inbox[1..], received := i.received + [Packet(i.sender, p.num, p.kind, p.attrs)])
  }

  function Dispatched(m: Store, i: Intake, view: AttrMap, now: int64, unset: Outputs): Store
    requires i.inbox != []
  {
    var r, num := |i.received|, i.inbox[0].num;
    match OutcomeOf(i, view)
    case Alive => m.(wire := m.wire + [AliveReply(r, i.sender, num)])
    case Rejected(descr) => m.(wire := m.wire + [Rejection(r, i.sender, num, descr)])
    case Accepted(params) =>
      m.(heap := m.heap[r := NewRequest(i.sender, num, now, params, unset)],
         queue := m.queue + [r], pushed := m.pushed + [r], life := m.life[r := []])
  }

  // One line of a worker: where it goes next, which mutex it takes or gives back, what it does.

  function Age(m: Store, r: nat, now: int64): int {
    if r in m.heap then now - m.heap[r].accepted else 0
  }

  function NextPc(s: State, w: nat, c: Choice): Pc
    requires WorkerEnabled(s.ctl, w)
  {
    match s.ctl.workers[w]
    case CheckStop => if s.ctl.stopFlag then Exited else TakeLock
    case TakeLock => EnterWait
    case EnterWait => Asleep
    case Relock => Unlock
    case Unlock => Pop
    case Pop => if s.store.queue == [] then CheckStop else AgeCheck(s.store.queue[0])
    case AgeCheck(r) => if Age(s.store, r, c.now) < MAX_REQUEST_AGE then Process(r) else Delete(r)
    case Process(r) => if c.db.Some? then TakeSocket(r) else Recover(r)
    case Recover(r) => Delete(r)
    case TakeSocket(r) => Send(r)
    case Send(r) => ReleaseSocket(r, c.sendOk)
    case ReleaseSocket(r, sent) => LogKafka(r, sent)
    case LogKafka(r, _) => Delete(r)
    case Delete(_) => Pop
  }

  function StepWorker(s: State, w: nat, c: Choice): Control
    requires WorkerEnabled(s.ctl, w)
  {
    var pc := s.ctl.workers[w];
    s.ctl.(workers := s.ctl.workers[w := NextPc(s, w, c)],
           lock := if OwnsLock(pc) then None else if pc.TakeLock? || pc.Relock? then Some(w) else s.ctl.lock,
           socketMutex := if pc.ReleaseSocket? then None else if pc.TakeSocket? then Some(w) else s.ctl.socketMutex)
  }

  /** A step that would touch freed memory, an unset member or a freed connection. */
  predicate Faults(s: State, w: nat)
    requires w < |s.ctl.workers|
  {
    var pc := s.ctl.workers[w];
    Holds(pc) && (
      || pc.r !in s.store.heap
      || ((pc.Process? || pc.Recover?) && DbFreed(s.ctl, w))
      || (pc.Send? && !s.ctl.socketSet)
      || (pc.LogKafka? && !s.ctl.producerSet))
  }

  function Record(m: Store, r: nat, e: Event): Store {
    m.(life := m.life[r := (if r in m.life then m.life[r] else []) + [e]])
  }

  /** The request after the handler of the database exception. */
  function FailedRequest(r: Request, errorText: string): Request {
    r.(resultDescr := "**** DB ERROR ****\n" + errorText, resultCode := RESULT_CODE_DB_EXCEPTION)
  }

  function Effect(s: State, w: nat, c: Choice): Store
    requires WorkerEnabled(s.ctl, w)
  {
    var m := s.store;
    if Faults(s, w) then m.(fault := true)
    else
      match s.ctl.workers[w]
      case Pop => if m.queue == [] then m else m.(queue := m.queue[1..], popped := m.popped + [m.queue[0]])
      case AgeCheck(r) =>
        var age := Age(m, r, c.now);
        Record(m, r, if age < MAX_REQUEST_AGE then Started(age) else Discarded(age))
      case Process(r) =>
        if c.db.None? then m
        else
          var after := Processed(m.heap[r], c.db.value);
          Record(m.(heap := m.heap[r := after]), r, Returned(after))
      case Recover(r) =>
        var failed := FailedRequest(m.heap[r], c.errorText);
        Record(m.(heap := m.heap[r := failed]), r, Failed(failed.resultCode))
      case Send(r) => Record(m.(wire := m.wire + [Answer(r, m.heap[r])]), r, SendTried(c.sendOk))
      case LogKafka(r, sent) =>
        var cdr := KafkaRecord(m.heap[r], sent);
        if s.kafka && cdr.Some? then Record(m.(produced := m.produced + [(r, cdr.value)]), r, Logged(cdr.value)) else m
      case Delete(r) => Record(m.(heap := m.heap - {r}, deleted := m.deleted + [r]), r, Freed)
      case _ => m
  }

  // ---- runs ----

  /** The state after the actions, and whether each of them was possible when it was taken. */
  function Exec(s: State, run: seq<Action>): State
    requires Valid(s, run)
    decreases |run|, 1
  {
    if run == [] then s else Step(Exec(s, run[..|run| - 1]), run[|run| - 1])
  }

  predicate Valid(s: State, run: seq<Action>)
    decreases |run|, 0
  {
    run == [] || (Valid(s, run[..|run| - 1]) && Enabled(Exec(s, run[..|run| - 1]), run[|run| - 1]))
  }
}
