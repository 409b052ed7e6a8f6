/**
 The destructor: when `join` returns, and what the queue then still holds. `notify_all` reaches only the
 workers that already sleep, so a worker caught between reading `stopFlag` and the wait decides both.
 */
module PoolShutdown {
  import opened Bytes
  import opened Requests
  import opened ClientRequests
  import opened Framing
  import opened PoolModel
  import opened PoolControl
  import opened PoolOwnership
  import opened PoolHistory
  import opened PoolSafety

  /** Read `stopFlag` as false, but not asleep yet. */
  predicate LateSleeper(pc: Pc) { pc.TakeLock? || pc.EnterWait? }

  predicate AnyLateSleeper(c: Control) {
    exists w :: 0 <= w < |c.workers| && LateSleeper(c.workers[w])
  }

  /** `notify_all` has run and no worker can sleep any more. */
  predicate Closing(s: State) {
    && ControlInv(s)
    && (s.ctl.main.Join? || s.ctl.main.FreeDbs? || s.ctl.main.Done?)
    && forall w :: 0 <= w < |s.ctl.workers| ==> !LateSleeper(s.ctl.workers[w]) && !s.ctl.workers[w].Asleep?
  }

  // ---- the measure ----

  /** How far a worker is from sleeping, or from having exited; each line brings it closer, a pop aside. */
  function Rank(pc: Pc): nat {
    match pc
    case Exited => 0
    case Asleep => 0
    case EnterWait => 1
    case TakeLock => 2
    case CheckStop => 3
    case Pop => 4
    case Unlock => 5
    case Relock => 6
    case Delete(_) => 5
    case LogKafka(_, _) => 6
    case ReleaseSocket(_, _) => 7
    case Send(_) => 8
    case TakeSocket(_) => 9
    case Recover(_) => 6
    case Process(_) => 10
    case AgeCheck(_) => 11
  }

  function TotalRank(ws: seq<Pc>): nat {
    if ws == [] then 0 else TotalRank(ws[..|ws| - 1]) + Rank(ws[|ws| - 1])
  }

  lemma {:induction false} RankUpdate(ws: seq<Pc>, w: nat, pc: Pc)
    requires w < |ws|
    ensures TotalRank(ws[w := pc]) == TotalRank(ws) - Rank(ws[w]) + Rank(pc)
  {
    hide Rank;
    var init, last := ws[..|ws| - 1], ws[|ws| - 1];
    if w == |ws| - 1 {
      assert ws[w := pc][..w] == init;
    } else {
      RankUpdate(init, w, pc);
      assert ws[w := pc][..|ws| - 1] == init[w := pc];
    }
  }

  function MainRank(c: Control): nat
    requires c.main.Join? || c.main.FreeDbs? ==> c.main.i <= |c.workers|
  {
    match c.main
    case Join(i) => 2 * |c.workers| + 2 - i
    case FreeDbs(i) => |c.workers| + 1 - i
    case _ => 0
  }

  const REQUEST_WEIGHT := 8

  /** What the workers still have to do. */
  function WorkLeft(s: State): nat {
    REQUEST_WEIGHT * |s.store.queue| + TotalRank(s.ctl.workers)
  }

  function Measure(s: State): nat
    requires Closing(s)
  {
    WorkLeft(s) + MainRank(s.ctl)
  }

  lemma WorkerRankFalls(s: State, w: nat, c: Choice)
    requires WorkerEnabled(s.ctl, w) && !Faults(s, w)
    ensures REQUEST_WEIGHT * |Effect(s, w, c).queue| + Rank(NextPc(s, w, c))
          < REQUEST_WEIGHT * |s.store.queue| + Rank(s.ctl.workers[w])
  {
    hide KafkaRecord, Processed, Age;
  }

  /** Whatever a worker does, less is left to do. */
  lemma WorkLeftFalls(s: State, w: nat, c: Choice)
    requires WorkerEnabled(s.ctl, w) && !Faults(s, w)
    ensures WorkLeft(Step(s, Work(w, c))) < WorkLeft(s)
  {
    assert Step(s, Work(w, c)).ctl.workers == s.ctl.workers[w := NextPc(s, w, c)];
    assert w < |s.ctl.workers|;
    hide Effect, NextPc, Faults, Rank, TotalRank, WorkerEnabled;
    WorkerRankFalls(s, w, c);
    RankUpdate(s.ctl.workers, w, NextPc(s, w, c));
  }

  lemma StaysAwake(s: State, w: nat, c: Choice)
    requires WorkerEnabled(s.ctl, w) && !LateSleeper(s.ctl.workers[w])
    requires s.ctl.workers[w].CheckStop? ==> s.ctl.stopFlag
    ensures !LateSleeper(NextPc(s, w, c)) && !NextPc(s, w, c).Asleep?
  {
    hide Age;
  }

  lemma ClosingWork(s: State, w: nat, c: Choice)
    requires Closing(s) && WorkerEnabled(s.ctl, w) && !Faults(s, w) && ControlInv(Step(s, Work(w, c)))
    ensures Closing(Step(s, Work(w, c))) && Measure(Step(s, Work(w, c))) < Measure(s)
  {
    var pc, pc' := s.ctl.workers[w], NextPc(s, w, c);
    assert pc.CheckStop? ==> s.ctl.stopFlag;
    assert Step(s, Work(w, c)).ctl.workers == s.ctl.workers[w := pc'];
    assert Step(s, Work(w, c)).ctl.main == s.ctl.main;
    StaysAwake(s, w, c);
    hide ControlInv, Effect, NextPc, Faults, WorkLeft, WorkerEnabled, LateSleeper;
    WorkLeftFalls(s, w, c);
  }

  lemma ClosingMain(s: State)
    requires Closing(s) && MainEnabled(s.ctl) && ControlInv(Step(s, MainStep))
    ensures Closing(Step(s, MainStep)) && Measure(Step(s, MainStep)) < Measure(s)
  {
    hide LockInv, Rank, TotalRank, LateSleeper;
  }

  /** Every step after `notify_all` brings the end closer. */
  lemma ClosingStep(s: State, a: Action)
    requires PoolInv(s) && Closing(s) && Enabled(s, a)
    ensures PoolInv(Step(s, a)) && Closing(Step(s, a)) && Measure(Step(s, a)) < Measure(s)
  {
    assert a.Work? || a.MainStep? by { hide PoolInv; }
    assert ControlInv(Step(s, a)) by { ControlKept(s, a); }
    if a.Work? {
      assert !Faults(s, a.w) by { hide HistoryInv; NoFault(s, a.w); }
    }
    hide PoolInv, ControlInv, Closing, Measure, Faults, Step;
    InvKept(s, a);
    if a.Work? { ClosingWork(s, a.w, a.choice); } else { ClosingMain(s); }
  }

  /** While a thread is left, some thread can move: no deadlock on either mutex. */
  lemma ClosingProgress(s: State) returns (a: Action)
    requires Closing(s) && !s.ctl.main.Done?
    ensures Enabled(s, a) && !a.Wake?
  {
    a := MainStep;
    if s.ctl.main.Join? && s.ctl.main.i < |s.ctl.workers| && !s.ctl.workers[s.ctl.main.i].Exited? {
      var w, choice := s.ctl.main.i, Choice(0, None, "", false);
      if s.ctl.workers[w].Relock? && s.ctl.lock.Some? {
        w := s.ctl.lock.value;
      } else if s.ctl.workers[w].TakeSocket? && s.ctl.socketMutex.Some? {
        w := s.ctl.socketMutex.value;
      }
      a := Work(w, choice);
    }
  }

  lemma {:induction false} ClosingAlong(s: State, run: seq<Action>)
    requires PoolInv(s) && Closing(s) && Valid(s, run)
    ensures PoolInv(Exec(s, run)) && Closing(Exec(s, run))
    ensures |run| + Measure(Exec(s, run)) <= Measure(s)
    decreases |run|
  {
    hide PoolInv, Closing, Measure, Step, Enabled;
    if run != [] {
      ClosingAlong(s, run[..|run| - 1]);
      ClosingStep(Exec(s, run[..|run| - 1]), run[|run| - 1]);
    }
  }

  /** `notify_all` with nobody caught between the flag and the wait. */
  lemma ClosingStarts(s: State)
    requires PoolInv(s) && s.ctl.main.NotifyAll? && !AnyLateSleeper(s.ctl)
    ensures PoolInv(Step(s, MainStep)) && Closing(Step(s, MainStep))
  {
    assert PoolInv(Step(s, MainStep)) by { hide ControlInv, OwnershipInv, HistoryInv; InvKept(s, MainStep); }
    hide OwnershipInv, HistoryInv;
  }

  /**
   Without a late sleeper every continuation is finite, and one that cannot be continued has joined every
   worker: `join` returns under any scheduling.
   */
  lemma ShutdownTerminates(s: State, run: seq<Action>)
    requires PoolInv(s) && s.ctl.main.NotifyAll? && !AnyLateSleeper(s.ctl)
    requires Valid(Step(s, MainStep), run)
    ensures Closing(Step(s, MainStep)) && |run| <= Measure(Step(s, MainStep))
    ensures var t := Exec(Step(s, MainStep), run);
            (forall a :: !Enabled(t, a)) ==> t.ctl.main.Done? && AllExited(t.ctl)
  {
    var first := Step(s, MainStep);
    ClosingStarts(s);
    hide PoolInv, Measure, Enabled, Step;
    ClosingAlong(first, run);
    var t := Exec(first, run);
    if !t.ctl.main.Done? {
      var a := ClosingProgress(t);
    }
  }

  // ---- prepending a step to a run ----

  lemma {:induction false} ExecCons(s: State, a: Action, run: seq<Action>)
    requires Enabled(s, a) && Valid(Step(s, a), run)
    ensures Valid(s, [a] + run) && Exec(s, [a] + run) == Exec(Step(s, a), run)
    decreases |run|
  {
    hide Step, Enabled;
    if run == [] {
      assert [a] + run == [a];
      assert [a][..0] == [];
    } else {
      ExecCons(s, a, run[..|run| - 1]);
      assert ([a] + run)[..|run|] == [a] + run[..|run| - 1];
    }
  }

  lemma {:induction false} FinishRun(s: State) returns (run: seq<Action>)
    requires PoolInv(s) && Closing(s)
    ensures Valid(s, run) && Exec(s, run).ctl.main.Done?
    ensures forall a :: a in run ==> !a.Wake?
    decreases Measure(s)
  {
    hide PoolInv, Measure, Step, Enabled;
    run := [];
    if !s.ctl.main.Done? {
      var a := ClosingProgress(s);
      ClosingStep(s, a);
      run := FinishRun(Step(s, a));
      ExecCons(s, a, run);
      run := [a] + run;
    }
  }

  predicate LateAt(s: State, w: nat) {
    && (s.ctl.main.Join? || s.ctl.main.FreeDbs? || s.ctl.main.Done?)
    && w < |s.ctl.workers| && (LateSleeper(s.ctl.workers[w]) || s.ctl.workers[w].Asleep?)
  }

  lemma LateSleeperStep(s: State, a: Action, w: nat)
    requires LateAt(s, w) && Enabled(s, a) && a != Wake(w)
    ensures LateAt(Step(s, a), w)
  {
    hide Effect, Dispatched, IsView, Packets;
  }

  /** A late sleeper, once `notify_all` is over, only wakes spuriously. */
  lemma {:induction false} LateSleeperStays(s: State, run: seq<Action>, w: nat)
    requires LateAt(s, w) && Valid(s, run) && Wake(w) !in run
    ensures LateAt(Exec(s, run), w)
    decreases |run|
  {
    hide LateAt, Step, Enabled;
    if run != [] {
      var before, a := run[..|run| - 1], run[|run| - 1];
      assert run == before + [a];
      LateSleeperStays(s, before, w);
      LateSleeperStep(Exec(s, before), a, w);
    }
  }

  /** The destructor can finish without the help of a spurious wakeup. */
  ghost predicate CanFinish(s: State) {
    exists run: seq<Action> :: Valid(s, run) && (forall a :: a in run ==> !a.Wake?) && Exec(s, run).ctl.main.Done?
  }

  /** `join` returns exactly when `notify_all` catches no worker between the flag and the wait. */
  lemma ShutdownCompletesIff(s: State)
    requires PoolInv(s) && s.ctl.main.NotifyAll?
    ensures CanFinish(Step(s, MainStep)) <==> !AnyLateSleeper(s.ctl)
  {
    var t := Step(s, MainStep);
    assert ControlInv(t) by { hide OwnershipInv, HistoryInv; ControlKept(s, MainStep); }
    if AnyLateSleeper(s.ctl) {
      var w :| 0 <= w < |s.ctl.workers| && LateSleeper(s.ctl.workers[w]);
      forall run: seq<Action> | Valid(t, run) && (forall a :: a in run ==> !a.Wake?)
        ensures !Exec(t, run).ctl.main.Done?
      {
        hide PoolInv, ControlInv, Step, Enabled;
        NeverJoined(t, run, w);
      }
    } else {
      ClosingStarts(s);
      hide PoolInv, Closing, Step;
      var run := FinishRun(t);
    }
  }

  lemma NeverJoined(t: State, run: seq<Action>, w: nat)
    requires ControlInv(t) && t.ctl.main.Join?
    requires w < |t.ctl.workers| && (LateSleeper(t.ctl.workers[w]) || t.ctl.workers[w].Asleep?)
    requires Valid(t, run) && forall a :: a in run ==> !a.Wake?
    ensures !Exec(t, run).ctl.main.Done?
  {
    hide Enabled, Step;
    LateSleeperStays(t, run, w);
    ControlAlong(t, run);
  }

  lemma {:induction false} ControlAlong(s: State, run: seq<Action>)
    requires ControlInv(s) && Valid(s, run)
    ensures ControlInv(Exec(s, run))
    decreases |run|
  {
    hide ControlInv, Step, Enabled;
    if run != [] {
      ControlAlong(s, run[..|run| - 1]);
      ControlKept(Exec(s, run[..|run| - 1]), run[|run| - 1]);
    }
  }

  // ---- what is left in the queue ----

  /** Will see the queue before it exits. */
  predicate Committed(pc: Pc) { !pc.CheckStop? && !pc.Exited? }

  predicate AnyCommitted(c: Control) {
    exists w :: 0 <= w < |c.workers| && Committed(c.workers[w])
  }

  lemma StoppedStep(s: State, a: Action)
    requires ControlInv(s) && Stopped(s.ctl.main) && Enabled(s, a)
    ensures Stopped(Step(s, a).ctl.main)
    ensures AnyCommitted(s.ctl) || s.store.queue == [] ==> AnyCommitted(Step(s, a).ctl) || Step(s, a).store.queue == []
    ensures !AnyCommitted(s.ctl) ==> !AnyCommitted(Step(s, a).ctl) && Step(s, a).store.queue == s.store.queue
  {
    var t := Step(s, a);
    if a.Work? {
      WorkStops(s, a.w, a.choice);
    } else if AnyCommitted(s.ctl) {
      var w :| 0 <= w < |s.ctl.workers| && Committed(s.ctl.workers[w]);
      assert Committed(t.ctl.workers[w]);
    }
  }

  lemma WorkStops(s: State, w: nat, c: Choice)
    requires s.ctl.stopFlag && WorkerEnabled(s.ctl, w)
    ensures var t := Step(s, Work(w, c));
            && (AnyCommitted(s.ctl) || s.store.queue == [] ==> AnyCommitted(t.ctl) || t.store.queue == [])
            && (!AnyCommitted(s.ctl) ==> !AnyCommitted(t.ctl) && t.store.queue == s.store.queue)
  {
    hide KafkaRecord, Processed;
    var t := Step(s, Work(w, c));
    assert Committed(s.ctl.workers[w]) ==> AnyCommitted(s.ctl);
    if Committed(t.ctl.workers[w]) {
      assert AnyCommitted(t.ctl);
    } else if AnyCommitted(s.ctl) && s.store.queue != [] {
      var v :| 0 <= v < |s.ctl.workers| && Committed(s.ctl.workers[v]);
      assert v != w;
      assert Committed(t.ctl.workers[v]);
    }
  }

  lemma {:induction false} StoppedAlong(s: State, run: seq<Action>)
    requires ControlInv(s) && Stopped(s.ctl.main) && Valid(s, run)
    ensures ControlInv(Exec(s, run)) && Stopped(Exec(s, run).ctl.main)
    ensures AnyCommitted(s.ctl) || s.store.queue == [] ==>
              AnyCommitted(Exec(s, run).ctl) || Exec(s, run).store.queue == []
    ensures !AnyCommitted(s.ctl) ==> !AnyCommitted(Exec(s, run).ctl) && Exec(s, run).store.queue == s.store.queue
    decreases |run|
  {
    hide ControlInv, AnyCommitted, Step, Enabled;
    if run != [] {
      var t := Exec(s, run[..|run| - 1]);
      StoppedAlong(s, run[..|run| - 1]);
      ControlKept(t, run[|run| - 1]);
      StoppedStep(t, run[|run| - 1]);
    }
  }

  /**
   When the destructor is done, the queue is empty exactly if it was empty at `notify_all` or some worker
   then still had the queue ahead of it. An empty queue means every pushed request was deleted, once; a
   request that is left was never touched.
   */
  lemma ShutdownDrains(s: State, run: seq<Action>)
    requires PoolInv(s) && s.ctl.main.NotifyAll? && Valid(s, run) && Exec(s, run).ctl.main.Done?
    ensures var t := Exec(s, run);
            && AllExited(t.ctl)
            && (t.store.queue == [] <==> s.store.queue == [] || AnyCommitted(s.ctl))
            && (t.store.queue == [] || t.store.queue == s.store.queue)
            && multiset(t.store.pushed) == multiset(t.store.deleted) + multiset(t.store.queue)
            && forall r :: multiset(t.store.pushed)[r] <= 1
  {
    var t := Exec(s, run);
    assert ControlInv(s) && Stopped(s.ctl.main);
    hide PoolInv, ControlInv, Step, Enabled;
    StoppedAlong(s, run);
    InvAlong(s, run);
    DoneState(t);
  }

  lemma DoneState(t: State)
    requires PoolInv(t) && t.ctl.main.Done?
    ensures AllExited(t.ctl) && !AnyCommitted(t.ctl)
    ensures multiset(t.store.pushed) == multiset(t.store.deleted) + multiset(t.store.queue)
    ensures forall r :: multiset(t.store.pushed)[r] <= 1
  {
    hide OwnershipInv, HistoryInv;
    NothingHeld(t.ctl.workers);
    Conservation(t);
  }

  lemma {:induction false} NothingHeld(ws: seq<Pc>)
    requires forall w :: 0 <= w < |ws| ==> !Holds(ws[w])
    ensures HeldIds(ws) == multiset{}
  {
    if ws != [] {
      NothingHeld(ws[..|ws| - 1]);
    }
  }
}
