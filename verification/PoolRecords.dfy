/** What reaches Kafka over a whole run: the records logged, each once, in the order they were produced. */
module PoolRecords {
  import opened Bytes
  import opened ClientRequests
  import opened Requests
  import SmsCdrs
  import CallCdrs
  import opened PoolModel
  import opened PoolOwnership
  import opened PoolHistory
  import opened PoolSafety

  function TopicOf(c: Cdr, sms: string, calls: string): string {
    if c.SmsMessage? then sms else calls
  }

  /** The messages the producer is handed. */
  function Messages(produced: seq<(nat, Cdr)>, sms: string, calls: string): seq<(string, seq<byte>)> {
    seq(|produced|, i requires 0 <= i < |produced| =>
      (TopicOf(produced[i].1, sms, calls), CdrBytes(produced[i].1)))
  }

  /** SMS records go to the first topic and call records to the second, each in its own encoding. */
  lemma MessageIs(produced: seq<(nat, Cdr)>, sms: string, calls: string, i: nat)
    requires i < |produced|
    ensures |Messages(produced, sms, calls)| == |produced|
    ensures Messages(produced, sms, calls)[i]
         == match produced[i].1
            case SmsMessage(r) => (sms, SmsCdrs.Encoded(r))
            case CallMessage(r) => (calls, CallCdrs.Encoded(r))
  {
  }

  /** The history ends its send attempt with a log entry. */
  predicate HasLogged(h: seq<Event>) {
    |h| > 3 && h[3].Logged?
  }

  /** Produced records and logged histories correspond, one to one. */
  ghost predicate Recorded(m: Store) {
    && (forall i :: 0 <= i < |m.produced| ==>
          m.produced[i].0 in m.life && HasLogged(m.life[m.produced[i].0])
          && m.life[m.produced[i].0][3].cdr == m.produced[i].1)
    && (forall i, j :: 0 <= i < j < |m.produced| ==> m.produced[i].0 != m.produced[j].0)
    && (forall r :: r in m.life && HasLogged(m.life[r]) ==> (r, m.life[r][3].cdr) in m.produced)
  }

  lemma QuietEvent(m: Store, m': Store, r: nat, e: Event)
    requires Recorded(m) && r in m.life && !e.Logged?
    requires m'.produced == m.produced && m'.life == m.life[r := m.life[r] + [e]]
    ensures Recorded(m')
  {
    var h, h' := m.life[r], m'.life[r];
    assert HasLogged(h') <==> HasLogged(h);
    assert HasLogged(h) ==> h'[3] == h[3];
    hide HasLogged;
    assert forall k :: k in m'.life && k != r ==> m'.life[k] == m.life[k];
  }

  lemma LogEvent(m: Store, m': Store, r: nat, cdr: Cdr)
    requires Recorded(m) && r in m.life && |m.life[r]| == 3
    requires m'.produced == m.produced + [(r, cdr)] && m'.life == m.life[r := m.life[r] + [Logged(cdr)]]
    ensures Recorded(m')
  {
    assert HasLogged(m'.life[r]) && m'.life[r][3] == Logged(cdr) && !HasLogged(m.life[r]);
    hide HasLogged;
    assert forall k :: k in m'.life && k != r ==> m'.life[k] == m.life[k];
    assert m'.produced[|m.produced|] == (r, cdr);
    forall k | k in m'.life && HasLogged(m'.life[k]) ensures (k, m'.life[k][3].cdr) in m'.produced {
      if k != r { assert (k, m.life[k][3].cdr) in m.produced; }
    }
  }

  /** What a worker's line adds to the history of its request and to the records. */
  lemma LineRecords(s: State, w: nat, c: Choice) returns (e: Event)
    requires WorkerEnabled(s.ctl, w) && !Faults(s, w)
    requires Holds(s.ctl.workers[w]) && s.ctl.workers[w].r in s.store.life
    ensures var m, m', r := s.store, Effect(s, w, c), s.ctl.workers[w].r;
            || (m'.life == m.life && m'.produced == m.produced)
            || (!e.Logged? && m'.life == m.life[r := m.life[r] + [e]] && m'.produced == m.produced)
            || (s.ctl.workers[w].LogKafka? && e.Logged? && m'.life == m.life[r := m.life[r] + [e]]
                && m'.produced == m.produced + [(r, e.cdr)])
  {
    hide KafkaRecord, Processed, FailedRequest;
    var m, r := s.store, s.ctl.workers[w].r;
    e := Freed;
    match s.ctl.workers[w]
    case AgeCheck(_) =>
      var age := Age(m, r, c.now);
      e := if age < MAX_REQUEST_AGE then Started(age) else Discarded(age);
    case Process(_) => if c.db.Some? { e := Returned(Processed(m.heap[r], c.db.value)); }
    case Recover(_) => e := Failed(FailedRequest(m.heap[r], c.errorText).resultCode);
    case Send(_) => e := SendTried(c.sendOk);
    case LogKafka(_, sent) => if KafkaRecord(m.heap[r], sent).Some? { e := Logged(KafkaRecord(m.heap[r], sent).value); }
    case _ =>
  }

  lemma WorkRecorded(s: State, w: nat, c: Choice)
    requires PoolInv(s) && Recorded(s.store) && WorkerEnabled(s.ctl, w)
    ensures Recorded(Effect(s, w, c))
  {
    hide PoolInv, Recorded, Effect, Faults;
    Sound(s, w);
    if Holds(s.ctl.workers[w]) {
      HoldingRecorded(s, w, c);
    } else {
      IdleRecords(s, w, c);
      SameRecords(s.store, Effect(s, w, c));
    }
  }

  lemma HoldingRecorded(s: State, w: nat, c: Choice)
    requires Recorded(s.store) && WorkerEnabled(s.ctl, w) && !Faults(s, w) && Holds(s.ctl.workers[w])
    requires s.ctl.workers[w].r in s.store.life
    requires s.ctl.workers[w].LogKafka? ==> |s.store.life[s.ctl.workers[w].r]| == 3
    ensures Recorded(Effect(s, w, c))
  {
    hide Recorded, Effect, Faults;
    var e := LineRecords(s, w, c);
    var m, m', r := s.store, Effect(s, w, c), s.ctl.workers[w].r;
    if m'.life == m.life && m'.produced == m.produced {
      SameRecords(m, m');
    } else if e.Logged? {
      LogEvent(m, m', r, e.cdr);
    } else {
      QuietEvent(m, m', r, e);
    }
  }

  lemma IdleRecords(s: State, w: nat, c: Choice)
    requires WorkerEnabled(s.ctl, w) && !Holds(s.ctl.workers[w])
    ensures Effect(s, w, c).life == s.store.life && Effect(s, w, c).produced == s.store.produced
  {
    hide Age, KafkaRecord, Processed, FailedRequest, Record;
  }

  /** What the invariants say about the request in hand. */
  lemma Sound(s: State, w: nat)
    requires PoolInv(s) && WorkerEnabled(s.ctl, w)
    ensures !Faults(s, w)
    ensures var pc := s.ctl.workers[w];
            && (Holds(pc) ==> pc.r in s.store.life)
            && (pc.LogKafka? ==> |s.store.life[pc.r]| == 3)
  {
    hide *;
    Parts(s);
    NoFault(s, w);
    LengthAt(s, w);
  }

  lemma LengthAt(s: State, w: nat)
    requires HistoryInv(s) && WorkerEnabled(s.ctl, w)
    ensures var pc := s.ctl.workers[w];
            && (Holds(pc) ==> pc.r in s.store.life)
            && (pc.LogKafka? ==> |s.store.life[pc.r]| == 3)
  {
    hide QueuedFresh, DeletedComplete;
    assert HeldAt(s.store, s.ctl.workers[w], s.kafka);
  }

  lemma SameRecords(m: Store, m': Store)
    requires Recorded(m) && m'.life == m.life && m'.produced == m.produced
    ensures Recorded(m')
  {
  }

  lemma NewRequestRecorded(m: Store, m': Store, r: nat)
    requires Recorded(m) && r !in m.life && m'.life == m.life[r := []] && m'.produced == m.produced
    ensures Recorded(m')
  {
    assert !HasLogged([]);
    hide HasLogged;
  }

  lemma NextIsNew(s: State)
    requires PoolInv(s)
    ensures |s.intake.received| !in s.store.life
  {
    hide *;
    Parts(s);
    NotPushedYet(s);
  }

  lemma NotPushedYet(s: State)
    requires OwnershipInv(s)
    ensures |s.intake.received| !in s.store.life
  {
  }

  lemma DispatchRecorded(s: State, view: AttrMap, now: int64, unset: Outputs)
    requires PoolInv(s) && Recorded(s.store) && s.intake.inbox != []
    ensures Recorded(Dispatched(s.store, s.intake, view, now, unset))
  {
    hide PoolInv, Recorded, OutcomeOf, NewRequest;
    NextIsNew(s);
    var m' := Dispatched(s.store, s.intake, view, now, unset);
    if OutcomeOf(s.intake, view).Accepted? {
      NewRequestRecorded(s.store, m', |s.intake.received|);
    } else {
      SameRecords(s.store, m');
    }
  }

  lemma RecordedKept(s: State, a: Action)
    requires PoolInv(s) && Recorded(s.store) && Enabled(s, a)
    ensures Recorded(Step(s, a).store)
  {
    hide PoolInv, Recorded, Effect, Dispatched, StepWorker, StepMain, WorkerEnabled, MainEnabled, IsView;
    match a
    case Work(w, c) => WorkRecorded(s, w, c);
    case Dispatch(view, now, unset) => DispatchRecorded(s, view, now, unset);
    case _ =>
  }

  /**
   Over every run the records produced are exactly those the histories say were logged, and no request is
   recorded twice.
   */
  lemma {:induction false} RunRecords(n: nat, kafka: bool, run: seq<Action>, s: State)
    requires Run(n, kafka, run, s)
    ensures Recorded(s.store)
    decreases |run|
  {
    if run != [] {
      var before := run[..|run| - 1];
      var t := Exec(Initial(n, kafka), before);
      RunRecords(n, kafka, before, t);
      RunInv(n, kafka, before, t);
      hide PoolInv, Recorded, Step, Enabled, Initial;
      RecordedKept(t, run[|run| - 1]);
    }
  }
}
