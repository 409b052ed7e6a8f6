/** Threads, locks and initialization: what every reachable state of the pool satisfies. */
module PoolControl {
  import opened Bytes
  import opened Requests
  import opened Framing
  import opened PoolModel

  predicate Initializing(m: MainPc) { m.Spawn? || m.SetSocket? || m.SetProducer? || m.SetInitialized? }

  predicate Stopped(m: MainPc) { m.NotifyAll? || m.Join? || m.FreeDbs? || m.Done? }

  /** The main thread, the flags it sets and the workers it waits for move together. */
  predicate MainInv(c: Control, n: nat) {
    && |c.workers| <= n && (!c.main.Spawn? ==> |c.workers| == n)
    && (c.stopFlag <==> Stopped(c.main))
    && (c.socketSet <==> !c.main.Spawn? && !c.main.SetSocket?)
    && (c.producerSet <==> !c.main.Spawn? && !c.main.SetSocket? && !c.main.SetProducer?)
    && (c.main.Join? ==>
          c.main.i <= |c.workers| && forall w :: 0 <= w < c.main.i ==> c.workers[w].Exited?)
    && (c.main.FreeDbs? || c.main.Done? ==> AllExited(c))
    && (c.main.FreeDbs? ==> c.main.i <= |c.workers|)
    && (forall w :: 0 <= w < |c.workers| && c.workers[w].Exited? ==> c.stopFlag)
  }

  /** Each mutex is owned by exactly the worker inside its critical section. */
  predicate LockInv(c: Control) {
    && (forall w :: 0 <= w < |c.workers| ==> (OwnsLock(c.workers[w]) <==> c.lock == Some(w)))
    && (forall w :: 0 <= w < |c.workers| ==> (OwnsSocket(c.workers[w]) <==> c.socketMutex == Some(w)))
    && (c.lock.Some? ==> c.lock.value < |c.workers|)
    && (c.socketMutex.Some? ==> c.socketMutex.value < |c.workers|)
  }

  /** Nothing is received before initialization ends, or left over when the server stops. */
  predicate IntakeInv(s: State) {
    && (Initializing(s.ctl.main) ==> s.intake.received == [])
    && (!s.ctl.main.Serve? && !s.ctl.main.Notify? ==> s.intake.inbox == [])
  }

  predicate ControlInv(s: State) {
    MainInv(s.ctl, s.n) && LockInv(s.ctl) && IntakeInv(s)
  }

  lemma MainStepKeeps(s: State)
    requires ControlInv(s) && Enabled(s, MainStep)
    ensures ControlInv(Step(s, MainStep))
  {
  }

  lemma WorkerKeepsMain(s: State, w: nat, c: Choice)
    requires MainInv(s.ctl, s.n) && WorkerEnabled(s.ctl, w)
    ensures MainInv(StepWorker(s, w, c), s.n)
  {
    var pc' := NextPc(s, w, c);
    assert pc'.Exited? ==> s.ctl.stopFlag;
    hide NextPc, OwnsLock;
  }

  lemma WorkerKeepsLocks(s: State, w: nat, c: Choice)
    requires LockInv(s.ctl) && WorkerEnabled(s.ctl, w)
    ensures LockInv(StepWorker(s, w, c))
  {
    hide Age;
  }

  lemma WokenKeeps(c: Control, n: nat, w: nat)
    requires MainInv(c, n) && LockInv(c)
    ensures MainInv(Notified(c, w), n) && LockInv(Notified(c, w))
    ensures c.main.Notify? ==> MainInv(Notified(c, w).(main := Serve), n) && LockInv(Notified(c, w).(main := Serve))
    ensures Notified(c, w).main == c.main
  {
  }

  lemma ControlKept(s: State, a: Action)
    requires ControlInv(s) && Enabled(s, a)
    ensures ControlInv(Step(s, a))
  {
    hide Classify, Dispatched, Effect, StepMain, NextPc, Packets, Notified;
    match a
    case MainStep => MainStepKeeps(s);
    case Work(w, c) =>
      hide MainInv, LockInv;
      WorkerKeepsMain(s, w, c);
      WorkerKeepsLocks(s, w, c);
    case NotifyOne(t) =>
      hide MainInv, LockInv;
      WokenKeeps(s.ctl, s.n, t);
    case Wake(w) =>
      hide MainInv, LockInv;
      WokenKeeps(s.ctl, s.n, w);
    case _ =>
  }
}
