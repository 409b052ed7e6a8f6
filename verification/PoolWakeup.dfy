/**
 Which requests are left in the queue. The workers wait without a predicate, so a notification can be
 lost; these lemmas say exactly when.
 */
module PoolWakeup {
  import opened Requests
  import opened ClientRequests
  import opened Framing
  import opened PoolModel
  import opened PoolSafety

  /** Not asleep and not draining: between a failed pop (or the start) and the wait. */
  predicate InGap(pc: Pc) {
    pc.CheckStop? || pc.TakeLock? || pc.EnterWait? || pc.Exited?
  }

  predicate AllInGap(c: Control) {
    forall w :: 0 <= w < |c.workers| ==> InGap(c.workers[w])
  }

  predicate Notifies(s: State, a: Action) {
    a.NotifyOne? || (a.MainStep? && s.ctl.main.NotifyAll?)
  }

  /** The latest notification found every worker in the gap, and no worker has woken since. */
  predicate NotifyMissed(s: State, run: seq<Action>)
    requires Valid(s, run)
    decreases |run|
  {
    run != []
    && var before, a := run[..|run| - 1], run[|run| - 1];
       if Notifies(Exec(s, before), a) then AllInGap(Exec(s, before).ctl)
       else !a.Wake? && NotifyMissed(s, before)
  }

  /** What the latest notification leaves behind. */
  predicate Covered(s: State, missed: bool) {
    && (missed ==> !AnyDraining(s.ctl))
    && (s.store.queue != [] && !s.ctl.main.Notify? && !AnyDraining(s.ctl) ==> missed)
  }

  lemma DrainingAfter(c: Control, c': Control, w: nat)
    requires w < |c.workers| == |c'.workers| && c'.workers == c.workers[w := c'.workers[w]]
    requires Draining(c'.workers[w]) <==> Draining(c.workers[w])
    ensures AnyDraining(c') <==> AnyDraining(c)
  {
    if AnyDraining(c) {
      var v :| 0 <= v < |c.workers| && Draining(c.workers[v]);
      assert Draining(c'.workers[v]);
    }
  }

  lemma WorkCovered(s: State, w: nat, c: Choice, missed: bool)
    requires Covered(s, missed) && WorkerEnabled(s.ctl, w)
    ensures Covered(Step(s, Work(w, c)), missed)
  {
    var t := Step(s, Work(w, c));
    assert Draining(s.ctl.workers[w]) ==> AnyDraining(s.ctl);
    if !(s.ctl.workers[w].Pop? && s.store.queue == []) {
      assert Draining(t.ctl.workers[w]) <==> Draining(s.ctl.workers[w]);
      assert t.store.queue != [] ==> s.store.queue != [] by { QueueShrinks(s, w, c); }
      hide Draining, NextPc, Effect;
      DrainingAfter(s.ctl, t.ctl, w);
    }
  }

  lemma QueueShrinks(s: State, w: nat, c: Choice)
    requires WorkerEnabled(s.ctl, w)
    ensures |Effect(s, w, c).queue| <= |s.store.queue|
    ensures Effect(s, w, c).queue == s.store.queue || (s.ctl.workers[w].Pop? && s.store.queue != [])
  {
    hide KafkaRecord, Processed;
  }

  lemma NotifyCovered(s: State, a: Action)
    requires Enabled(s, a) && Notifies(s, a)
    ensures Covered(Step(s, a), AllInGap(s.ctl))
  {
    var t := Step(s, a);
    if AllInGap(s.ctl) {
      assert forall w :: 0 <= w < |s.ctl.workers| ==> !s.ctl.workers[w].Asleep?;
    } else {
      var w :| 0 <= w < |s.ctl.workers| && !InGap(s.ctl.workers[w]);
      if s.ctl.workers[w].Asleep? {
        assert AnyAsleep(s.ctl);
        assert Draining(t.ctl.workers[if a.NotifyOne? then a.target else w]);
      } else {
        assert Draining(t.ctl.workers[w]);
      }
    }
  }

  lemma OtherCovered(s: State, a: Action, missed: bool)
    requires Covered(s, missed) && Enabled(s, a) && !Notifies(s, a) && !a.Work?
    ensures Covered(Step(s, a), !a.Wake? && missed)
  {
    hide Classify, IsView, Packets, NewRequest;
    var t := Step(s, a);
    if a.Wake? {
      assert Draining(t.ctl.workers[a.w]);
    } else {
      assert forall w :: 0 <= w < |s.ctl.workers| ==> t.ctl.workers[w] == s.ctl.workers[w];
      assert AnyDraining(t.ctl) <==> AnyDraining(s.ctl) by {
        if AnyDraining(s.ctl) {
          var v :| 0 <= v < |s.ctl.workers| && Draining(s.ctl.workers[v]);
          assert Draining(t.ctl.workers[v]);
        }
      }
    }
  }

  lemma {:induction false} CoveredAlong(n: nat, kafka: bool, run: seq<Action>)
    requires Valid(Initial(n, kafka), run)
    ensures Covered(Exec(Initial(n, kafka), run), NotifyMissed(Initial(n, kafka), run))
    decreases |run|
  {
    if run != [] {
      var init, before, a := Initial(n, kafka), run[..|run| - 1], run[|run| - 1];
      CoveredAlong(n, kafka, before);
      hide Covered, AllInGap, Step, Enabled, Initial;
      var s := Exec(init, before);
      if Notifies(s, a) { NotifyCovered(s, a); }
      else if a.Work? { WorkStep(s, a, NotifyMissed(init, before)); }
      else { OtherCovered(s, a, NotifyMissed(init, before)); }
    }
  }

  lemma WorkStep(s: State, a: Action, missed: bool)
    requires a.Work? && Covered(s, missed) && Enabled(s, a)
    ensures Covered(Step(s, a), missed)
  {
    hide Covered, WorkerEnabled;
    WorkCovered(s, a.w, a.choice, missed);
  }

  /**
   Requests are waiting, no notification is pending and no worker is on its way to them exactly when the
   latest notification found all workers in the gap and none has woken since.
   */
  lemma StrandedExactly(n: nat, kafka: bool, run: seq<Action>, s: State)
    requires Run(n, kafka, run, s)
    requires s.store.queue != [] && !s.ctl.main.Notify?
    ensures !AnyDraining(s.ctl) <==> NotifyMissed(Initial(n, kafka), run)
  {
    CoveredAlong(n, kafka, run);
  }

  /** In that state nothing is popped until a notification or a spurious wakeup. */
  lemma {:induction false} StrandedUntilWoken(s: State, run: seq<Action>)
    requires Valid(s, run) && !AnyDraining(s.ctl)
    requires forall a :: a in run ==> !a.Wake? && !a.NotifyOne? && !a.MainStep?
    ensures !AnyDraining(Exec(s, run).ctl)
    ensures Exec(s, run).store.popped == s.store.popped && s.store.queue <= Exec(s, run).store.queue
    decreases |run|
  {
    if run != [] {
      var before, a := run[..|run| - 1], run[|run| - 1];
      assert run == before + [a];
      StrandedUntilWoken(s, before);
      hide AnyDraining, Enabled, Step;
      StrandedStep(Exec(s, before), a);
    }
  }

  lemma StrandedStep(s: State, a: Action)
    requires Enabled(s, a) && !AnyDraining(s.ctl) && !a.Wake? && !a.NotifyOne? && !a.MainStep?
    ensures !AnyDraining(Step(s, a).ctl)
    ensures Step(s, a).store.popped == s.store.popped && s.store.queue <= Step(s, a).store.queue
  {
    hide Classify, IsView, Packets, NewRequest, KafkaRecord, Processed;
    if a.Work? {
      assert !Draining(s.ctl.workers[a.w]);
      assert !Draining(NextPc(s, a.w, a.choice));
      assert !s.ctl.workers[a.w].Pop?;
      DrainingAfter(s.ctl, Step(s, a).ctl, a.w);
    }
  }
}
