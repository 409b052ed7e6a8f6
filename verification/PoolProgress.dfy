/** A woken worker gets through the queue, and a single worker answers in arrival order. */
module PoolProgress {
  import opened Bytes
  import opened Requests
  import opened ClientRequests
  import opened Framing
  import opened PoolModel
  import opened PoolControl
  import opened PoolOwnership
  import opened PoolHistory
  import opened PoolReplies
  import opened PoolWakeup
  import opened PoolShutdown
  import opened PoolSafety

  // ---- drain progress ----

  predicate DrainingAt(s: State, w: nat) {
    w < |s.ctl.workers| && Draining(s.ctl.workers[w])
  }

  /** Lines the workers run. */
  function WorkSteps(run: seq<Action>): nat {
    if run == [] then 0 else WorkSteps(run[..|run| - 1]) + if run[|run| - 1].Work? then 1 else 0
  }

  const WAKE_WEIGHT := 6
  const START_WEIGHT := 3

  /** What a step of another thread can add to the work left, a push aside: it wakes workers, or starts one. */
  function Added(s: State, a: Action): nat {
    if a.Wake? || a.NotifyOne? then WAKE_WEIGHT
    else if a.MainStep? && s.ctl.main.NotifyAll? then WAKE_WEIGHT * |s.ctl.workers|
    else if a.MainStep? && s.ctl.main.Spawn? then START_WEIGHT
    else 0
  }

  function TotalAdded(s: State, run: seq<Action>): nat
    requires Valid(s, run)
    decreases |run|
  {
    if run == [] then 0
    else TotalAdded(s, run[..|run| - 1]) + Added(Exec(s, run[..|run| - 1]), run[|run| - 1])
  }

  lemma {:induction false} RankOfWoken(ws: seq<Pc>)
    ensures TotalRank(WakeAll(ws)) <= TotalRank(ws) + WAKE_WEIGHT * |ws|
  {
    if ws != [] {
      RankOfWoken(ws[..|ws| - 1]);
      assert WakeAll(ws)[..|ws| - 1] == WakeAll(ws[..|ws| - 1]);
    }
  }

  lemma RankOfNotified(c: Control, w: nat)
    ensures TotalRank(Notified(c, w).workers) <= TotalRank(c.workers) + WAKE_WEIGHT
  {
    if w < |c.workers| {
      RankUpdate(c.workers, w, Relock);
    }
  }

  lemma MainAdds(s: State)
    requires MainEnabled(s.ctl)
    ensures TotalRank(StepMain(s.ctl, s.n).workers) <= TotalRank(s.ctl.workers) + Added(s, MainStep)
  {
    var ws := s.ctl.workers;
    assert (ws + [CheckStop])[..|ws|] == ws;
    RankOfWoken(ws);
  }

  lemma WorkLeftStep(s: State, a: Action)
    requires PoolInv(s) && Enabled(s, a) && !a.Dispatch?
    ensures WorkLeft(Step(s, a)) + (if a.Work? then 1 else 0) <= WorkLeft(s) + Added(s, a)
  {
    match a
    case MainStep =>
      hide PoolInv, TotalRank, StepMain;
      MainAdds(s);
    case Work(w, c) =>
      assert !Faults(s, w) by { hide HistoryInv; NoFault(s, w); }
      hide PoolInv, WorkLeft, Faults, Step, WorkerEnabled;
      WorkLeftFalls(s, w, c);
    case NotifyOne(t) =>
      hide PoolInv, TotalRank, Notified;
      RankOfNotified(s.ctl, t);
    case Wake(w) =>
      hide PoolInv, TotalRank, Notified;
      RankOfNotified(s.ctl, w);
    case Receive(_, _) =>
    case Shutdown =>
  }

  /**
   With no further pushes, all workers together run at most `WorkLeft` lines, and a few more for each
   wakeup: whichever way each request takes, whoever is scheduled, and however the mutexes change hands.
   */
  lemma {:induction false} DrainBounded(s: State, run: seq<Action>)
    requires PoolInv(s) && Valid(s, run) && forall a :: a in run ==> !a.Dispatch?
    ensures WorkSteps(run) + WorkLeft(Exec(s, run)) <= WorkLeft(s) + TotalAdded(s, run)
    decreases |run|
  {
    hide PoolInv, Step, Enabled, WorkLeft, Added;
    if run != [] {
      var before, a := run[..|run| - 1], run[|run| - 1];
      assert run == before + [a];
      assert forall b :: b in before ==> b in run;
      DrainBounded(s, before);
      InvAlong(s, before);
      WorkLeftStep(Exec(s, before), a);
    }
  }

  /** A draining worker, or the owner of the mutex it waits for, can move. */
  lemma StuckMeansDrained(s: State)
    requires ControlInv(s) && forall w :: 0 <= w < |s.ctl.workers| ==> !WorkerEnabled(s.ctl, w)
    ensures !AnyDraining(s.ctl)
  {
    if AnyDraining(s.ctl) {
      var w :| 0 <= w < |s.ctl.workers| && Draining(s.ctl.workers[w]);
      var owner := DrainerNotBlocked(s, w);
    }
  }

  /**
   So the workers come to rest, and when they rest and no notification is due, either nothing is queued or
   the latest notification was missed.
   */
  lemma RestingMeansServed(n: nat, kafka: bool, run: seq<Action>, s: State)
    requires Run(n, kafka, run, s) && !s.ctl.main.Notify?
    requires forall w :: 0 <= w < |s.ctl.workers| ==> !WorkerEnabled(s.ctl, w)
    ensures !AnyDraining(s.ctl)
    ensures s.store.queue == [] || NotifyMissed(Initial(n, kafka), run)
  {
    RunInv(n, kafka, run, s);
    assert ControlInv(s) by { hide Run; }
    StuckMeansDrained(s);
    hide PoolInv, AnyDraining, NotifyMissed;
    if s.store.queue != [] {
      StrandedExactly(n, kafka, run, s);
    }
  }

  /**
   At rest every request pushed is closed, unless the latest notification was missed and left some in the
   queue. Then every packet dispatched has its reply on the wire, save exactly the requests that expired or
   failed in the database.
   */
  lemma RestingMeansSettled(n: nat, kafka: bool, run: seq<Action>, s: State)
    requires Run(n, kafka, run, s) && !s.ctl.main.Notify?
    requires forall w :: 0 <= w < |s.ctl.workers| ==> !WorkerEnabled(s.ctl, w)
    ensures multiset(s.store.pushed) == multiset(s.store.queue) + multiset(s.store.deleted)
    ensures s.store.queue == [] || NotifyMissed(Initial(n, kafka), run)
    ensures s.store.queue == [] ==>
              forall r :: 0 <= r < |s.intake.received| ==> (HasReply(s.store, r) <==> !ClosedSilently(s.store, r))
  {
    RestingMeansServed(n, kafka, run, s);
    hide Run, NotifyMissed, WorkerEnabled, HasReply, ClosedSilently;
    RequestsConserved(n, kafka, run, s);
    NothingHeld(s.ctl.workers);
    if s.store.queue == [] {
      forall r | 0 <= r < |s.intake.received| ensures HasReply(s.store, r) <==> !ClosedSilently(s.store, r) {
        EveryPacketSettled(n, kafka, run, s, r);
      }
    }
  }

  /** A worker stops draining only by finding the queue empty. */
  lemma StopsDrainingEmpty(s: State, a: Action, w: nat)
    requires Enabled(s, a) && DrainingAt(s, w) && !DrainingAt(Step(s, a), w)
    ensures a.Work? && a.w == w && s.ctl.workers[w].Pop? && s.store.queue == []
  {
    hide Packets, Classify, Effect, Age;
  }

  /** Between draining and not draining lies an empty pop of that worker's own. */
  lemma {:induction false} EmptyPopReached(s: State, run: seq<Action>, w: nat) returns (k: nat)
    requires Valid(s, run) && DrainingAt(s, w) && !DrainingAt(Exec(s, run), w)
    ensures k < |run| && Valid(s, run[..k]) && run[k].Work? && run[k].w == w
    ensures w < |Exec(s, run[..k]).ctl.workers| && Exec(s, run[..k]).ctl.workers[w].Pop?
    ensures Exec(s, run[..k]).store.queue == []
    decreases |run|
  {
    hide Step, Enabled, DrainingAt;
    var before, a := run[..|run| - 1], run[|run| - 1];
    if DrainingAt(Exec(s, before), w) {
      k := |run| - 1;
      StopsDrainingEmpty(Exec(s, before), a, w);
      StaysAWorker(Exec(s, before), w);
    } else {
      k := EmptyPopReached(s, before, w);
      assert run[..k] == before[..k];
    }
  }

  lemma StaysAWorker(s: State, w: nat)
    requires DrainingAt(s, w)
    ensures w < |s.ctl.workers|
  {
  }

  /**
   Once awake, a worker gets to an empty pop: a continuation without pushes cannot go on without it for
   more worker lines than `DrainBounded` allows, and one after which no worker can move has it behind it.
   */
  lemma DrainCompletes(s: State, run: seq<Action>, w: nat) returns (k: nat)
    requires PoolInv(s) && DrainingAt(s, w) && Valid(s, run) && forall a :: a in run ==> !a.Dispatch?
    requires forall v :: 0 <= v < |Exec(s, run).ctl.workers| ==> !WorkerEnabled(Exec(s, run).ctl, v)
    ensures WorkSteps(run) <= WorkLeft(s) + TotalAdded(s, run)
    ensures k < |run| && Valid(s, run[..k]) && run[k].Work? && run[k].w == w
    ensures w < |Exec(s, run[..k]).ctl.workers| && Exec(s, run[..k]).ctl.workers[w].Pop?
    ensures Exec(s, run[..k]).store.queue == []
  {
    var t := Exec(s, run);
    DrainBounded(s, run);
    hide Step, Enabled, WorkLeft, TotalAdded, PoolInv;
    InvAlong(s, run);
    Parts(t);
    hide ControlInv, WorkerEnabled;
    StuckMeansDrained(t);
    assert !DrainingAt(t, w);
    hide DrainingAt, AnyDraining;
    k := EmptyPopReached(s, run, w);
  }

  /** Lines the owner of a mutex still runs inside its critical section. */
  function CriticalSteps(pc: Pc): nat {
    if pc.Send? then 2 else if OwnsLock(pc) || pc.ReleaseSocket? then 1 else 0
  }

  /**
   A draining worker can move, or waits for a mutex whose owner can; the owner gives it back after at most
   two lines of its own, none of which can block.
   */
  lemma DrainerNotBlocked(s: State, w: nat) returns (owner: nat)
    requires ControlInv(s) && DrainingAt(s, w)
    ensures WorkerEnabled(s.ctl, w) || (
              && owner != w && WorkerEnabled(s.ctl, owner) && 1 <= CriticalSteps(s.ctl.workers[owner]) <= 2
              && forall c :: CriticalSteps(NextPc(s, owner, c)) == CriticalSteps(s.ctl.workers[owner]) - 1)
  {
    owner := w;
    if s.ctl.workers[w].Relock? && s.ctl.lock.Some? {
      owner := s.ctl.lock.value;
    } else if s.ctl.workers[w].TakeSocket? && s.ctl.socketMutex.Some? {
      owner := s.ctl.socketMutex.value;
    }
  }

  // ---- a single worker ----

  predicate AnswersAscend(wire: seq<Reply>) {
    forall i, j :: 0 <= i < j < |wire| && wire[i].Answer? && wire[j].Answer? ==> wire[i].r < wire[j].r
  }

  /** Every request in hand is the last one popped. */
  predicate HoldsLatest(ws: seq<Pc>, popped: seq<nat>) {
    forall w :: 0 <= w < |ws| && Holds(ws[w]) ==> popped != [] && ws[w].r == popped[|popped| - 1]
  }

  predicate SingleInv(s: State) {
    s.n == 1 ==> HoldsLatest(s.ctl.workers, s.store.popped) && AnswersAscend(s.store.wire)
  }

  /** Every answer on the wire belongs to a request popped before. */
  lemma AnsweredWasPopped(s: State, i: nat)
    requires PoolInv(s) && i < |s.store.wire| && s.store.wire[i].Answer?
    ensures s.store.wire[i].r in s.store.popped
  {
    var r := s.store.wire[i].r;
    assert r in s.store.life && SendDone(s.store.life[r]);
    assert r in s.store.pushed;
    assert r !in s.store.queue;
  }

  lemma AscendsSnoc(wire: seq<Reply>, reply: Reply)
    requires AnswersAscend(wire) && forall i :: 0 <= i < |wire| && wire[i].Answer? ==> wire[i].r < reply.r
    ensures AnswersAscend(wire + [reply])
  {
  }

  lemma OrderAndAnswers(s: State)
    requires OwnershipInv(s) && ReplyInv(s)
    ensures InOrder(s.store, |s.intake.received|) && AnswersRecorded(s.store)
  {
    hide InOrder, AnswersRecorded;
  }

  lemma SendAscends(s: State, w: nat, c: Choice)
    requires PoolInv(s) && SingleInv(s) && s.n == 1 && WorkerEnabled(s.ctl, w) && s.ctl.workers[w].Send?
    ensures AnswersAscend(Effect(s, w, c).wire)
  {
    assert w < |s.ctl.workers| && Holds(s.ctl.workers[w]);
    hide *;
    Parts(s);
    LatestInHand(s, w);
    var r, wire := s.ctl.workers[w].r, s.store.wire;
    NoFault(s, w);
    SendReady(s, w);
    SendEffect(s, w, c);
    RecordKeepsWire(s.store.(wire := wire + [Answer(r, s.store.heap[r])]), r, SendTried(c.sendOk));
    AnsweredBefore(s, r);
    AscendsSnoc(wire, Answer(r, s.store.heap[r]));
  }

  lemma LatestInHand(s: State, w: nat)
    requires SingleInv(s) && s.n == 1 && w < |s.ctl.workers| && Holds(s.ctl.workers[w])
    ensures s.store.popped != [] && s.ctl.workers[w].r == s.store.popped[|s.store.popped| - 1]
    ensures AnswersAscend(s.store.wire)
  {
    hide AnswersAscend, Holds;
  }

  lemma NotSentYet(h: seq<Event>)
    requires |h| == 2
    ensures !SendDone(h)
  {
  }

  /** Everything answered so far arrived before the last request popped. */
  lemma AnsweredBefore(s: State, r: nat)
    requires PoolInv(s) && s.store.popped != [] && r == s.store.popped[|s.store.popped| - 1]
    requires r in s.store.life && |s.store.life[r]| == 2
    ensures forall i :: 0 <= i < |s.store.wire| && s.store.wire[i].Answer? ==> s.store.wire[i].r < r
  {
    hide *;
    NotSentYet(s.store.life[r]);
    Parts(s);
    OrderAndAnswers(s);
    NotYetOnWire(s.store, r);
    forall i | 0 <= i < |s.store.wire| && s.store.wire[i].Answer? ensures s.store.wire[i].r < r {
      AnsweredWasPopped(s, i);
      PoppedBelowLast(s.store, |s.intake.received|, s.store.wire[i].r);
    }
  }

  lemma RecordKeepsWire(m: Store, r: nat, e: Event)
    ensures Record(m, r, e).wire == m.wire
  {
  }

  lemma PoppedBelowLast(m: Store, received: nat, r: nat)
    requires InOrder(m, received) && r in m.popped && r != m.popped[|m.popped| - 1]
    ensures r < m.popped[|m.popped| - 1]
  {
    var k :| 0 <= k < |m.popped| && m.popped[k] == r;
    var last := |m.popped| - 1;
    assert m.pushed[k] == m.popped[k] && m.pushed[last] == m.popped[last];
  }

  /** A worker's request is the one it had, or the one it just popped; only a send answers. */
  lemma WorkKeepsLatest(s: State, w: nat, c: Choice)
    requires WorkerEnabled(s.ctl, w)
    ensures !s.ctl.workers[w].Send? ==> Effect(s, w, c).wire == s.store.wire
    ensures Holds(s.ctl.workers[w]) ==>
              && Effect(s, w, c).popped == s.store.popped
              && (Holds(NextPc(s, w, c)) ==> NextPc(s, w, c).r == s.ctl.workers[w].r)
    ensures !Holds(s.ctl.workers[w]) && Holds(NextPc(s, w, c)) ==>
              Effect(s, w, c).popped == s.store.popped + [NextPc(s, w, c).r]
  {
    hide KafkaRecord, Processed, Age, FailedRequest;
  }

  lemma LatestKept(s: State, w: nat, c: Choice)
    requires WorkerEnabled(s.ctl, w) && |s.ctl.workers| == 1 && HoldsLatest(s.ctl.workers, s.store.popped)
    ensures HoldsLatest(s.ctl.workers[w := NextPc(s, w, c)], Effect(s, w, c).popped)
  {
    assert w == 0;
    hide Effect, NextPc, Holds, WorkerEnabled;
    WorkKeepsLatest(s, w, c);
  }

  lemma WorkSingle(s: State, w: nat, c: Choice)
    requires PoolInv(s) && SingleInv(s) && WorkerEnabled(s.ctl, w)
    ensures SingleInv(Step(s, Work(w, c)))
  {
    if s.n == 1 {
      assert |s.ctl.workers| <= 1;
      assert w < |s.ctl.workers|;
      if s.ctl.workers[w].Send? {
        SendAscends(s, w, c);
      }
      WorkKeepsLatest(s, w, c);
      hide PoolInv, Effect, NextPc, AnswersAscend, Holds, WorkerEnabled, HoldsLatest;
      LatestKept(s, w, c);
    }
  }

  lemma DispatchSingle(m: Store, i: Intake, view: AttrMap, now: int64, unset: Outputs)
    requires i.inbox != [] && AnswersAscend(m.wire)
    ensures AnswersAscend(Dispatched(m, i, view, now, unset).wire)
    ensures Dispatched(m, i, view, now, unset).popped == m.popped
  {
    hide OutcomeOf, NewRequest;
  }

  lemma SingleKept(s: State, a: Action)
    requires PoolInv(s) && SingleInv(s) && Enabled(s, a)
    ensures SingleInv(Step(s, a))
  {
    if a.Work? {
      hide PoolInv, SingleInv, WorkerEnabled;
      WorkSingle(s, a.w, a.choice);
    } else {
      hide PoolInv, IsView, Packets, Dispatched, AnswersAscend, OutcomeOf;
      if a.Dispatch? && s.n == 1 {
        DispatchSingle(s.store, s.intake, a.view, a.now, a.unset);
      }
    }
  }

  lemma {:induction false} SingleAlong(n: nat, kafka: bool, run: seq<Action>)
    requires Valid(Initial(n, kafka), run)
    ensures SingleInv(Exec(Initial(n, kafka), run))
    decreases |run|
  {
    if run != [] {
      var before := run[..|run| - 1];
      SingleAlong(n, kafka, before);
      RunInv(n, kafka, before, Exec(Initial(n, kafka), before));
      hide PoolInv, SingleInv, Step, Enabled, Initial;
      SingleKept(Exec(Initial(n, kafka), before), run[|run| - 1]);
    }
  }

  /** With one worker, responses leave in the order their requests arrived. */
  lemma SingleWorkerInOrder(kafka: bool, run: seq<Action>, s: State)
    requires Run(1, kafka, run, s)
    ensures AnswersAscend(s.store.wire)
  {
    SingleAlong(1, kafka, run);
    RunInv(1, kafka, run, s);
    hide PoolInv, Exec, Valid;
  }
}
