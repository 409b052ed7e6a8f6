/**
 Where a history comes from: every event was put there by one line of one worker, and says what that line
 found: the clock, the answer of the database, the outcome of the send. Numbers are written out.
 */
module PoolCauses {
  import opened Bytes
  import opened ClientRequests
  import opened Requests
  import opened RequestMeanings
  import opened PoolModel
  import opened PoolControl
  import opened PoolOwnership
  import opened PoolHistory
  import opened PoolSafety
  import PoolRecords

  /** Worker `w`, moving on from `s` with `c`, adds `e` to the history of request `r`. */
  ghost predicate Causes(s: State, w: nat, c: Choice, r: nat, e: Event) {
    && w < |s.ctl.workers| && r in s.store.heap
    && var pc, q := s.ctl.workers[w], s.store.heap[r];
       match e
       case Started(age) => pc == AgeCheck(r) && age == c.now - q.accepted && age < 3_000_000_000
       case Discarded(age) => pc == AgeCheck(r) && age == c.now - q.accepted && age >= 3_000_000_000
       case Returned(after) => pc == Process(r) && c.db.Some? && CallResult(q, c.db.value, after)
       case Failed(code) => pc == Recover(r) && code == -100
       case SendTried(ok) => pc == Send(r) && ok == c.sendOk
       case Logged(cdr) => pc.LogKafka? && pc.r == r && s.kafka && IsLogged(q) && RecordOf(q, pc.sent, cdr)
       case Freed => pc == Delete(r)
  }

  /** What one action does to the histories. */
  ghost predicate Grows(s: State, a: Action, t: State) {
    || t.store.life == s.store.life
    || (a.Dispatch? && |s.intake.received| !in s.store.life
        && t.store.life == s.store.life[|s.intake.received| := []])
    || (a.Work? && exists r: nat, e: Event :: Causes(s, a.w, a.choice, r, e) && r in s.store.life
                                    && t.store.life == s.store.life[r := s.store.life[r] + [e]])
  }

  lemma LineCauses(s: State, w: nat, c: Choice) returns (r: nat, e: Event)
    requires WorkerEnabled(s.ctl, w) && !Faults(s, w) && Holds(s.ctl.workers[w])
    requires s.ctl.workers[w].r in s.store.life && s.ctl.workers[w].r in s.store.heap
    ensures r in s.store.life
    ensures var life, life' := s.store.life, Effect(s, w, c).life;
            life' == life || (Causes(s, w, c, r, e) && life' == life[r := life[r] + [e]])
  {
    hide KafkaRecord, Processed, FailedRequest, IsLogged, RecordOf, CallResult;
    var m := s.store;
    r, e := s.ctl.workers[w].r, Freed;
    match s.ctl.workers[w] {
      case AgeCheck(_) =>
        var age := c.now - m.heap[r].accepted;
        e := if age < 3_000_000_000 then Started(age) else Discarded(age);
      case Process(_) =>
        if c.db.Some? {
          e := Returned(Processed(m.heap[r], c.db.value));
          ProcessedMeans(m.heap[r], c.db.value, Processed(m.heap[r], c.db.value));
        }
      case Recover(_) =>
        e := Failed(-100);
        FailureCode(m.heap[r], c.errorText);
      case Send(_) => e := SendTried(c.sendOk);
      case LogKafka(_, sent) =>
        if KafkaRecord(m.heap[r], sent).Some? {
          e := Logged(KafkaRecord(m.heap[r], sent).value);
          RecordMeans(m.heap[r], sent, e.cdr);
        }
      case _ =>
    }
  }

  lemma FailureCode(q: Request, errorText: string)
    ensures FailedRequest(q, errorText).resultCode == -100
  {
  }

  lemma InHandIs(s: State, w: nat)
    requires PoolInv(s) && WorkerEnabled(s.ctl, w) && Holds(s.ctl.workers[w])
    ensures !Faults(s, w) && s.ctl.workers[w].r in s.store.heap && s.ctl.workers[w].r in s.store.life
  {
    hide HistoryInv, ControlInv;
    Parts(s);
    NoFault(s, w);
    Exclusive(s, w);
    hide OwnershipInv, Faults;
    PushedHasLife(s, s.ctl.workers[w].r);
  }

  lemma PushedHasLife(s: State, r: nat)
    requires OwnershipInv(s)
    ensures r in s.store.pushed <==> r in s.store.life
    ensures |s.intake.received| !in s.store.life
  {
    hide HeldIds;
  }

  lemma WorkAddsLife(s: State, w: nat, c: Choice)
    requires PoolInv(s) && WorkerEnabled(s.ctl, w)
    ensures Grows(s, Work(w, c), Step(s, Work(w, c)))
  {
    hide PoolInv, Causes, Faults, Effect, StepWorker;
    if Holds(s.ctl.workers[w]) {
      InHandIs(s, w);
      var r, e := LineCauses(s, w, c);
    } else {
      IdleEffect(s, w, c);
    }
  }

  lemma DispatchAddsLife(s: State, view: AttrMap, now: int64, unset: Outputs)
    requires PoolInv(s) && Enabled(s, Dispatch(view, now, unset))
    ensures Grows(s, Dispatch(view, now, unset), Step(s, Dispatch(view, now, unset)))
  {
    hide PoolInv, IsView, Dispatched, Causes, OutcomeOf;
    PoolRecords.NextIsNew(s);
    DispatchedLife(s.store, s.intake, view, now, unset);
  }

  lemma DispatchedLife(m: Store, i: Intake, view: AttrMap, now: int64, unset: Outputs)
    requires i.inbox != []
    ensures var life := Dispatched(m, i, view, now, unset).life;
            life == m.life || life == m.life[|i.received| := []]
  {
    hide OutcomeOf, NewRequest;
  }

  lemma ActionAddsLife(s: State, a: Action)
    requires PoolInv(s) && Enabled(s, a)
    ensures Grows(s, a, Step(s, a))
  {
    match a {
      case Work(w, c) => WorkAddsLife(s, w, c);
      case Dispatch(view, now, unset) => DispatchAddsLife(s, view, now, unset);
      case _ => hide PoolInv, StepMain, MainEnabled, Causes, AnyAsleep;
    }
  }

  /** Action `k` of the run put event `e` into the history of `r`. */
  ghost predicate CausedAt(n: nat, kafka: bool, run: seq<Action>, k: nat, r: nat, e: Event) {
    && k < |run| && run[k].Work? && Valid(Initial(n, kafka), run[..k])
    && Causes(Exec(Initial(n, kafka), run[..k]), run[k].w, run[k].choice, r, e)
  }

  /** Every event of every history has the action that put it there. */
  lemma {:induction false} EventCause(n: nat, kafka: bool, run: seq<Action>, s: State, r: nat, j: nat)
    returns (k: nat)
    requires Run(n, kafka, run, s) && r in s.store.life && j < |s.store.life[r]|
    ensures CausedAt(n, kafka, run, k, r, s.store.life[r][j])
    decreases |run|
  {
    var last := |run| - 1;
    LastStep(n, kafka, run, s);
    hide *;
    var t := Exec(Initial(n, kafka), run[..last]);
    RunInv(n, kafka, run[..last], t);
    ActionAddsLife(t, run[last]);
    GrownEvent(t, run[last], s, r, j);
    if r in t.store.life && j < |t.store.life[r]| {
      k := EventCause(n, kafka, run[..last], t, r, j);
      CausedEarlier(n, kafka, run, k, r, s.store.life[r][j]);
    } else {
      k := last;
      CausedLast(n, kafka, run, r, s.store.life[r][j]);
    }
  }

  /** A run is one step longer than another, or has not begun. */
  lemma LastStep(n: nat, kafka: bool, run: seq<Action>, s: State)
    requires Run(n, kafka, run, s)
    ensures run == [] ==> s.store.life == map[] && s.store.heap == map[] && s.ctl.workers == []
    ensures run != [] ==>
              var before, a := run[..|run| - 1], run[|run| - 1];
              && Valid(Initial(n, kafka), before) && Run(n, kafka, before, Exec(Initial(n, kafka), before))
              && Enabled(Exec(Initial(n, kafka), before), a) && s == Step(Exec(Initial(n, kafka), before), a)
  {
    hide Enabled, Step;
  }

  /** An event is as old as its history says, or new. */
  lemma GrownEvent(s: State, a: Action, t: State, r: nat, j: nat)
    requires Grows(s, a, t) && r in t.store.life && j < |t.store.life[r]|
    ensures || (r in s.store.life && j < |s.store.life[r]| && s.store.life[r][j] == t.store.life[r][j])
            || (!(r in s.store.life && j < |s.store.life[r]|)
                && a.Work? && Causes(s, a.w, a.choice, r, t.store.life[r][j]))
  {
    hide Causes;
  }

  lemma CausedEarlier(n: nat, kafka: bool, run: seq<Action>, k: nat, r: nat, e: Event)
    requires run != [] && CausedAt(n, kafka, run[..|run| - 1], k, r, e)
    ensures CausedAt(n, kafka, run, k, r, e)
  {
    assert run[..|run| - 1][..k] == run[..k];
    hide Causes, Valid, Exec, Initial;
  }

  lemma CausedLast(n: nat, kafka: bool, run: seq<Action>, r: nat, e: Event)
    requires run != [] && Valid(Initial(n, kafka), run[..|run| - 1]) && run[|run| - 1].Work?
    requires Causes(Exec(Initial(n, kafka), run[..|run| - 1]), run[|run| - 1].w, run[|run| - 1].choice, r, e)
    ensures CausedAt(n, kafka, run, |run| - 1, r, e)
  {
    hide Causes, Valid, Exec, Initial;
  }

  // ---- what the clock and the database decide ----

  /** An action that is a line of a worker at a given point. */
  ghost predicate LineAt(n: nat, kafka: bool, run: seq<Action>, k: nat, pc: Pc) {
    && k < |run| && run[k].Work? && Valid(Initial(n, kafka), run[..k])
    && run[k].w < |Exec(Initial(n, kafka), run[..k]).ctl.workers|
    && Exec(Initial(n, kafka), run[..k]).ctl.workers[run[k].w] == pc
  }

  /** Action `k` takes up packet `r`. */
  ghost predicate TakesUp(n: nat, kafka: bool, run: seq<Action>, k: nat, r: nat) {
    && k < |run| && run[k].Dispatch? && Valid(Initial(n, kafka), run[..k])
    && |Exec(Initial(n, kafka), run[..k]).intake.received| == r
  }

  /** A live object is as old as before, or new. */
  lemma AcceptedKept(s: State, a: Action, r: nat)
    requires PoolInv(s) && Enabled(s, a) && r in Step(s, a).store.heap
    ensures || (r in s.store.heap && Step(s, a).store.heap[r].accepted == s.store.heap[r].accepted)
            || (a.Dispatch? && r == |s.intake.received| && Step(s, a).store.heap[r].accepted == a.now)
  {
    match a {
      case Work(w, c) =>
        hide PoolInv, StepWorker, Effect;
        WorkKeepsAccepted(s, w, c, r);
      case Dispatch(view, now, unset) =>
        hide PoolInv, Dispatched, IsView;
        DispatchedAccepted(s.store, s.intake, view, now, unset, r);
      case _ => hide PoolInv, StepMain, MainEnabled, AnyAsleep;
    }
  }

  lemma DispatchedAccepted(m: Store, i: Intake, view: AttrMap, now: int64, unset: Outputs, r: nat)
    requires i.inbox != [] && r in Dispatched(m, i, view, now, unset).heap
    ensures var q := Dispatched(m, i, view, now, unset).heap[r];
            (r in m.heap && q.accepted == m.heap[r].accepted) || (r == |i.received| && q.accepted == now)
  {
    hide OutcomeOf;
  }

  lemma WorkKeepsAccepted(s: State, w: nat, c: Choice, r: nat)
    requires PoolInv(s) && WorkerEnabled(s.ctl, w) && r in Effect(s, w, c).heap
    ensures r in s.store.heap && Effect(s, w, c).heap[r].accepted == s.store.heap[r].accepted
  {
    hide PoolInv, Faults, KafkaRecord, Age, ToInt8;
    if Holds(s.ctl.workers[w]) {
      InHandIs(s, w);
    }
  }

  /** The accept time of a live request is the time its packet was taken up. */
  lemma {:induction false} AcceptedWhen(n: nat, kafka: bool, run: seq<Action>, s: State, r: nat) returns (k: nat)
    requires Run(n, kafka, run, s) && r in s.store.heap
    ensures TakesUp(n, kafka, run, k, r) && s.store.heap[r].accepted == run[k].now
    decreases |run|
  {
    var last := |run| - 1;
    LastStep(n, kafka, run, s);
    hide *;
    var t := Exec(Initial(n, kafka), run[..last]);
    RunInv(n, kafka, run[..last], t);
    AcceptedKept(t, run[last], r);
    if r in t.store.heap && s.store.heap[r].accepted == t.store.heap[r].accepted {
      k := AcceptedWhen(n, kafka, run[..last], t, r);
      TakenUpEarlier(n, kafka, run, k, r);
    } else {
      k := last;
      TakenUpLast(n, kafka, run, r);
    }
  }

  lemma TakenUpEarlier(n: nat, kafka: bool, run: seq<Action>, k: nat, r: nat)
    requires run != [] && TakesUp(n, kafka, run[..|run| - 1], k, r)
    ensures TakesUp(n, kafka, run, k, r) && run[k] == run[..|run| - 1][k]
  {
    assert run[..|run| - 1][..k] == run[..k];
    hide Valid, Exec, Initial;
  }

  lemma TakenUpLast(n: nat, kafka: bool, run: seq<Action>, r: nat)
    requires run != [] && Valid(Initial(n, kafka), run[..|run| - 1]) && run[|run| - 1].Dispatch?
    requires |Exec(Initial(n, kafka), run[..|run| - 1]).intake.received| == r
    ensures TakesUp(n, kafka, run, |run| - 1, r)
  {
    hide Valid, Exec, Initial;
  }

  /**
   A worker about to check the age of a request goes on to process it if and only if less than three
   seconds passed since its packet was taken up, and otherwise to delete it.
   */
  lemma AgeDecides(n: nat, kafka: bool, run: seq<Action>, s: State, w: nat, c: Choice, r: nat) returns (k: nat)
    requires Run(n, kafka, run, s) && Enabled(s, Work(w, c)) && s.ctl.workers[w] == AgeCheck(r)
    ensures TakesUp(n, kafka, run, k, r) && Run(n, kafka, run + [Work(w, c)], Step(s, Work(w, c)))
    ensures r in s.store.heap && s.store.heap[r].accepted == run[k].now
    ensures var next := Step(s, Work(w, c)).ctl.workers;
            w < |next| && next[w] == if c.now - run[k].now < 3_000_000_000 then Process(r) else Delete(r)
  {
    RunInv(n, kafka, run, s);
    Extend(Initial(n, kafka), run, Work(w, c));
    hide PoolInv, Valid, Exec, Initial, Effect, Faults, TakesUp;
    InHandIs(s, w);
    k := AcceptedWhen(n, kafka, run, s, r);
  }

  /** A worker whose database call returns goes on to the response, and one whose call throws does not. */
  lemma DatabaseDecides(n: nat, kafka: bool, run: seq<Action>, s: State, w: nat, c: Choice, r: nat)
    requires Run(n, kafka, run, s) && Enabled(s, Work(w, c)) && s.ctl.workers[w] == Process(r)
    ensures r in s.store.heap && r in s.store.life
    ensures var t := Step(s, Work(w, c));
            if c.db.Some? then
              && t.ctl.workers == s.ctl.workers[w := TakeSocket(r)] && r in t.store.heap
              && CallResult(s.store.heap[r], c.db.value, t.store.heap[r])
              && t.store.life == s.store.life[r := s.store.life[r] + [Returned(t.store.heap[r])]]
            else t.ctl.workers == s.ctl.workers[w := Recover(r)] && t.store == s.store
  {
    hide *;
    RunInv(n, kafka, run, s);
    CallNext(s, w, c, r);
    InHandIs(s, w);
    CallEffect(s, w, c);
  }

  lemma CallNext(s: State, w: nat, c: Choice, r: nat)
    requires Enabled(s, Work(w, c)) && s.ctl.workers[w] == Process(r)
    ensures WorkerEnabled(s.ctl, w) && Holds(s.ctl.workers[w])
    ensures var t := Step(s, Work(w, c));
            && t.store == Effect(s, w, c)
            && t.ctl.workers == s.ctl.workers[w := if c.db.Some? then TakeSocket(r) else Recover(r)]
  {
    hide Effect;
  }

  lemma CallEffect(s: State, w: nat, c: Choice)
    requires WorkerEnabled(s.ctl, w) && !Faults(s, w) && s.ctl.workers[w].Process?
    requires s.ctl.workers[w].r in s.store.heap && s.ctl.workers[w].r in s.store.life
    ensures var m, m', r := s.store, Effect(s, w, c), s.ctl.workers[w].r;
            if c.db.Some? then
              && r in m'.heap && CallResult(m.heap[r], c.db.value, m'.heap[r])
              && m'.life == m.life[r := m.life[r] + [Returned(m'.heap[r])]]
            else m' == m
  {
    hide Faults, Processed, KafkaRecord, CallResult, Age;
    var q := s.store.heap[s.ctl.workers[w].r];
    if c.db.Some? {
      ProcessedMeans(q, c.db.value, Processed(q, c.db.value));
    }
  }

  /** A worker gets to the exception handler from a call that threw. */
  lemma HandlerFrom(s: State, a: Action, w: nat, r: nat)
    requires Enabled(s, a) && w < |Step(s, a).ctl.workers| && Step(s, a).ctl.workers[w] == Recover(r)
    ensures w < |s.ctl.workers|
    ensures || s.ctl.workers[w] == Recover(r)
            || (a.Work? && a.w == w && s.ctl.workers[w] == Process(r) && a.choice.db.None?)
  {
    hide Effect, Dispatched, Taken, OutcomeOf, IsView, Age, Notified, StepMain, MainEnabled, AnyAsleep;
    match a {
      case MainStep => MainKeepsHandlers(s, w, r);
      case NotifyOne(target) => NotifyKeepsHandlers(s.ctl, target, w, r);
      case Wake(sleeper) => NotifyKeepsHandlers(s.ctl, sleeper, w, r);
      case _ =>
    }
  }

  lemma MainKeepsHandlers(s: State, w: nat, r: nat)
    requires MainEnabled(s.ctl)
    requires w < |StepMain(s.ctl, s.n).workers| && StepMain(s.ctl, s.n).workers[w] == Recover(r)
    ensures w < |s.ctl.workers| && s.ctl.workers[w] == Recover(r)
  {
  }

  lemma NotifyKeepsHandlers(c: Control, target: nat, w: nat, r: nat)
    requires w < |Notified(c, target).workers| && Notified(c, target).workers[w] == Recover(r)
    ensures w < |c.workers| && c.workers[w] == Recover(r)
  {
  }

  lemma {:induction false} HandlerCause(n: nat, kafka: bool, run: seq<Action>, s: State, w: nat, r: nat)
    returns (k: nat)
    requires Run(n, kafka, run, s) && w < |s.ctl.workers| && s.ctl.workers[w] == Recover(r)
    ensures LineAt(n, kafka, run, k, Process(r)) && run[k].choice.db.None?
    decreases |run|
  {
    var last := |run| - 1;
    LastStep(n, kafka, run, s);
    hide *;
    var t := Exec(Initial(n, kafka), run[..last]);
    HandlerFrom(t, run[last], w, r);
    if t.ctl.workers[w] == Recover(r) {
      k := HandlerCause(n, kafka, run[..last], t, w, r);
      LineEarlier(n, kafka, run, k, Process(r));
    } else {
      k := last;
      LineLast(n, kafka, run, Process(r));
    }
  }

  lemma LineEarlier(n: nat, kafka: bool, run: seq<Action>, k: nat, pc: Pc)
    requires run != [] && LineAt(n, kafka, run[..|run| - 1], k, pc)
    ensures LineAt(n, kafka, run, k, pc) && run[k] == run[..|run| - 1][k]
  {
    assert run[..|run| - 1][..k] == run[..k];
    hide Valid, Exec, Initial;
  }

  lemma LineLast(n: nat, kafka: bool, run: seq<Action>, pc: Pc)
    requires run != [] && Valid(Initial(n, kafka), run[..|run| - 1]) && run[|run| - 1].Work?
    requires var t := Exec(Initial(n, kafka), run[..|run| - 1]);
             run[|run| - 1].w < |t.ctl.workers| && t.ctl.workers[run[|run| - 1].w] == pc
    ensures LineAt(n, kafka, run, |run| - 1, pc)
  {
    hide Valid, Exec, Initial;
  }

  /** A history says the database failed only if the call for that request threw. */
  lemma FailureCause(n: nat, kafka: bool, run: seq<Action>, s: State, r: nat, j: nat) returns (k: nat)
    requires Run(n, kafka, run, s) && r in s.store.life && j < |s.store.life[r]| && s.store.life[r][j].Failed?
    ensures s.store.life[r][j].code == -100
    ensures LineAt(n, kafka, run, k, Process(r)) && run[k].choice.db.None?
  {
    var h := EventCause(n, kafka, run, s, r, j);
    var t := Exec(Initial(n, kafka), run[..h]);
    assert Run(n, kafka, run[..h], t);
    hide Run, Initial, Exec, Valid;
    k := HandlerCause(n, kafka, run[..h], t, run[h].w, r);
    assert run[..h][..k] == run[..k];
  }
}
