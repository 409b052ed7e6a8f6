/**
 What happens to a pushed request between its push and its deletion: it expires, or its database call
 fails, or it is answered with exactly one send attempt and logged at most once.
 */
module PoolHistory {
  import opened Bytes
  import opened Requests
  import opened ClientRequests
  import opened Framing
  import opened PoolModel
  import opened PoolControl
  import opened PoolOwnership

  /** Nobody has worked on the request yet. */
  predicate Fresh(q: Request) {
    q.resultCode == RESULT_CODE_UNKNOWN && q.resultDescr == ""
  }

  predicate InTime(h: seq<Event>) {
    |h| > 0 && h[0].Started? && h[0].age < MAX_REQUEST_AGE
  }

  /** Too old when its turn came: neither processed nor answered. */
  predicate Expired(h: seq<Event>) {
    |h| == 1 && h[0].Discarded? && h[0].age >= MAX_REQUEST_AGE
  }

  /** The database call threw: the result is -100 and no response is sent. */
  predicate DbFailed(h: seq<Event>) {
    |h| == 2 && InTime(h) && h[1] == Failed(RESULT_CODE_DB_EXCEPTION)
  }

  /** The part of a history up to the send attempt, for a request left as `q` by its database call. */
  predicate Sent(h: seq<Event>, q: Request, ok: bool) {
    |h| == 3 && InTime(h) && h[1] == Returned(q) && h[2] == SendTried(ok) && q.resultDescr == ""
  }

  /** The record the request class logs, if any, carrying the outcome of the send attempt. */
  function LogEntry(kafka: bool, q: Request, ok: bool): seq<Event> {
    if kafka && KafkaRecord(q, ok).Some? then [Logged(KafkaRecord(q, ok).value)] else []
  }

  /** Processed normally: one send attempt, then the log entry. */
  predicate Answered(h: seq<Event>, kafka: bool) {
    && |h| >= 3 && h[1].Returned? && h[2].SendTried?
    && Sent(h[..3], h[1].after, h[2].ok)
    && h[3..] == LogEntry(kafka, h[1].after, h[2].ok)
  }

  predicate Closed(h: seq<Event>, kafka: bool) {
    Expired(h) || DbFailed(h) || Answered(h, kafka)
  }

  predicate Complete(h: seq<Event>, kafka: bool) {
    |h| > 0 && h[|h| - 1] == Freed && Closed(h[..|h| - 1], kafka)
  }

  /** The history and the object of a request whose worker is at `pc`. */
  predicate HistoryAt(pc: Pc, h: seq<Event>, q: Request, kafka: bool)
    requires Holds(pc)
  {
    match pc
    case AgeCheck(_) => h == [] && Fresh(q)
    case Process(_) => |h| == 1 && InTime(h) && Fresh(q)
    case Recover(_) => |h| == 1 && InTime(h) && Fresh(q)
    case TakeSocket(_) => |h| == 2 && InTime(h) && h[1] == Returned(q) && q.resultDescr == ""
    case Send(_) => |h| == 2 && InTime(h) && h[1] == Returned(q) && q.resultDescr == ""
    case ReleaseSocket(_, sent) => Sent(h, q, sent)
    case LogKafka(_, sent) => Sent(h, q, sent)
    case Delete(_) => Closed(h, kafka)
  }

  ghost predicate QueuedFresh(m: Store) {
    forall r :: r in m.queue ==> r in m.life && r in m.heap && m.life[r] == [] && Fresh(m.heap[r])
  }

  ghost predicate HeldAt(m: Store, pc: Pc, kafka: bool) {
    Holds(pc) ==> pc.r in m.life && pc.r in m.heap && HistoryAt(pc, m.life[pc.r], m.heap[pc.r], kafka)
  }

  ghost predicate DeletedComplete(m: Store, kafka: bool) {
    forall r :: r in m.deleted ==> r in m.life && Complete(m.life[r], kafka)
  }

  ghost predicate Histories(m: Store, ws: seq<Pc>, kafka: bool) {
    QueuedFresh(m) && DeletedComplete(m, kafka) && forall w :: 0 <= w < |ws| ==> HeldAt(m, ws[w], kafka)
  }

  ghost predicate HistoryInv(s: State) {
    Histories(s.store, s.ctl.workers, s.kafka)
  }

  /** Processing touches nothing but the result. */
  lemma ProcessedKeepsDescr(q: Request, db: DbReply)
    ensures Processed(q, db).resultDescr == q.resultDescr
    ensures (Processed(q, db).addr, Processed(q, db).num) == (q.addr, q.num)
    ensures Asked(Processed(q, db).params) == Asked(q.params)
  {
  }

  /** The stores differ at most in what they say about request `r`. */
  ghost predicate AgreeExcept(m: Store, m': Store, r: nat) {
    && (forall k :: k in m.life && k != r ==> k in m'.life && m'.life[k] == m.life[k])
    && (forall k :: k in m.heap && k != r ==> k in m'.heap && m'.heap[k] == m.heap[k])
  }

  /** Handling one request leaves the other histories alone. */
  lemma OthersKeep(m: Store, m': Store, ws: seq<Pc>, w: nat, pc': Pc, r: nat, kafka: bool)
    requires Histories(m, ws, kafka) && AgreeExcept(m, m', r) && w < |ws|
    requires m'.queue == m.queue && r !in m.queue
    requires m'.deleted == m.deleted && r !in m.deleted
    requires forall v :: 0 <= v < |ws| && v != w && Holds(ws[v]) ==> ws[v].r != r
    requires HeldAt(m', pc', kafka)
    ensures Histories(m', ws[w := pc'], kafka)
  {
    hide HistoryAt, Complete, Fresh;
    var ws' := ws[w := pc'];
    forall v | 0 <= v < |ws'| ensures HeldAt(m', ws'[v], kafka) {
      if v != w { assert HeldAt(m, ws[v], kafka); }
    }
  }

  /** The next line of a worker extends the history of its request as its program counter says. */
  lemma HandleExtends(s: State, w: nat, c: Choice)
    requires WorkerEnabled(s.ctl, w) && !Faults(s, w)
    requires Holds(s.ctl.workers[w]) && !s.ctl.workers[w].Delete? && HeldAt(s.store, s.ctl.workers[w], s.kafka)
    ensures HeldAt(Effect(s, w, c), NextPc(s, w, c), s.kafka)
    ensures AgreeExcept(s.store, Effect(s, w, c), s.ctl.workers[w].r)
  {
    hide KafkaRecord, Processed;
    if s.ctl.workers[w].Process? && c.db.Some? {
      ProcessedKeepsDescr(s.store.heap[s.ctl.workers[w].r], c.db.value);
    }
  }

  lemma HandleHistory(s: State, w: nat, c: Choice)
    requires ControlInv(s) && OwnershipInv(s) && HistoryInv(s) && WorkerEnabled(s.ctl, w)
    requires Holds(s.ctl.workers[w]) && !s.ctl.workers[w].Delete?
    ensures Histories(Effect(s, w, c), s.ctl.workers[w := NextPc(s, w, c)], s.kafka)
  {
    assert HeldAt(s.store, s.ctl.workers[w], s.kafka);
    hide ControlInv, OwnershipInv, Histories, HeldAt, AgreeExcept, Effect, NextPc, Faults;
    NoFault(s, w);
    Exclusive(s, w);
    HandleFrame(s, w, c);
    HandleExtends(s, w, c);
    OthersKeep(s.store, Effect(s, w, c), s.ctl.workers, w, NextPc(s, w, c), s.ctl.workers[w].r, s.kafka);
  }

  lemma DeleteCompletes(m: Store, ws: seq<Pc>, w: nat, r: nat, kafka: bool)
    requires Histories(m, ws, kafka) && w < |ws| && ws[w] == Delete(r)
    requires r !in m.queue
    requires forall v :: 0 <= v < |ws| && v != w && Holds(ws[v]) ==> ws[v].r != r
    ensures Histories(Record(m.(heap := m.heap - {r}, deleted := m.deleted + [r]), r, Freed), ws[w := Pop], kafka)
  {
    assert HeldAt(m, ws[w], kafka);
    assert Closed(m.life[r], kafka);
    hide Closed, HistoryAt, Fresh;
    var ws' := ws[w := Pop];
    var m' := Record(m.(heap := m.heap - {r}, deleted := m.deleted + [r]), r, Freed);
    assert m'.life[r][..|m'.life[r]| - 1] == m.life[r];
    forall v | 0 <= v < |ws'| ensures HeldAt(m', ws'[v], kafka) {
      if v != w { assert HeldAt(m, ws[v], kafka); }
    }
  }

  lemma DeleteHistory(s: State, w: nat, c: Choice)
    requires ControlInv(s) && OwnershipInv(s) && HistoryInv(s) && WorkerEnabled(s.ctl, w)
    requires s.ctl.workers[w].Delete?
    ensures Histories(Effect(s, w, c), s.ctl.workers[w := NextPc(s, w, c)], s.kafka)
  {
    hide ControlInv, OwnershipInv, Histories, Effect, NextPc, Faults, Record;
    NoFault(s, w);
    Exclusive(s, w);
    DeleteEffect(s, w, c);
    DeleteCompletes(s.store, s.ctl.workers, w, s.ctl.workers[w].r, s.kafka);
  }

  lemma IdleEffect(s: State, w: nat, c: Choice)
    requires WorkerEnabled(s.ctl, w) && !Holds(s.ctl.workers[w])
    ensures var m, m', pc' := s.store, Effect(s, w, c), NextPc(s, w, c);
            && (m'.life, m'.heap, m'.deleted) == (m.life, m.heap, m.deleted)
            && (forall r :: r in m'.queue ==> r in m.queue)
            && (Holds(pc') ==> pc'.AgeCheck? && pc'.r in m.queue)
  {
    hide Age, KafkaRecord, Processed;
  }

  /** A worker without a request changes no history; popping gives it a fresh one. */
  lemma IdleHistory(s: State, w: nat, c: Choice)
    requires OwnershipInv(s) && HistoryInv(s) && WorkerEnabled(s.ctl, w) && !Holds(s.ctl.workers[w])
    ensures Histories(Effect(s, w, c), s.ctl.workers[w := NextPc(s, w, c)], s.kafka)
  {
    IdleEffect(s, w, c);
    hide Fresh, Complete, Effect, NextPc, Faults, WorkerEnabled, OwnershipInv;
    var m', pc' := Effect(s, w, c), NextPc(s, w, c);
    var ws' := s.ctl.workers[w := pc'];
    forall v | 0 <= v < |ws'| ensures HeldAt(m', ws'[v], s.kafka) {
      assert HeldAt(s.store, s.ctl.workers[v], s.kafka);
    }
  }

  /** Pushing a request starts its history. */
  lemma PushHistory(m: Store, ws: seq<Pc>, kafka: bool, r: nat, q: Request)
    requires Histories(m, ws, kafka) && Fresh(q) && r !in m.life && r !in m.queue
    ensures Histories(m.(heap := m.heap[r := q], queue := m.queue + [r], pushed := m.pushed + [r],
                         life := m.life[r := []]), ws, kafka)
  {
    hide HistoryAt, Complete, Fresh;
    var m' := m.(heap := m.heap[r := q], queue := m.queue + [r], pushed := m.pushed + [r], life := m.life[r := []]);
    forall v | 0 <= v < |ws| ensures HeldAt(m', ws[v], kafka) {
      assert HeldAt(m, ws[v], kafka);
    }
  }

  lemma DispatchHistory(s: State, view: AttrMap, now: int64, unset: Outputs)
    requires OwnershipInv(s) && HistoryInv(s) && s.intake.inbox != []
    ensures Histories(Dispatched(s.store, s.intake, view, now, unset), s.ctl.workers, s.kafka)
  {
    hide HistoryAt, Complete, OutcomeOf, Balanced;
    var i, m := s.intake, s.store;
    if OutcomeOf(i, view).Accepted? {
      PushHistory(m, s.ctl.workers, s.kafka, |i.received|,
                  NewRequest(i.sender, i.inbox[0].num, now, OutcomeOf(i, view).params, unset));
    } else {
      var m' := Dispatched(m, i, view, now, unset);
      assert m' == m.(wire := m'.wire);
      forall v | 0 <= v < |s.ctl.workers| ensures HeldAt(m', s.ctl.workers[v], s.kafka) {
        assert HeldAt(m, s.ctl.workers[v], s.kafka);
      }
    }
  }

  /** Moving workers that hold nothing. */
  lemma MovesKeep(m: Store, ws: seq<Pc>, ws': seq<Pc>, kafka: bool)
    requires Histories(m, ws, kafka)
    requires forall v :: 0 <= v < |ws'| ==> !Holds(ws'[v]) || (v < |ws| && ws'[v] == ws[v])
    ensures Histories(m, ws', kafka)
  {
    hide HistoryAt, Complete, Fresh, Holds, QueuedFresh, DeletedComplete;
    forall v | 0 <= v < |ws'| ensures HeldAt(m, ws'[v], kafka) {
      if v < |ws| { assert HeldAt(m, ws[v], kafka); }
    }
  }

  lemma HistoryKept(s: State, a: Action)
    requires ControlInv(s) && OwnershipInv(s) && HistoryInv(s) && Enabled(s, a)
    ensures HistoryInv(Step(s, a))
  {
    hide Classify, Dispatched, Effect, NextPc, Packets, Histories, OwnershipInv, ControlInv;
    match a
    case MainStep => MovesKeep(s.store, s.ctl.workers, StepMain(s.ctl, s.n).workers, s.kafka);
    case Dispatch(view, now, unset) => DispatchHistory(s, view, now, unset);
    case NotifyOne(t) => MovesKeep(s.store, s.ctl.workers, Notified(s.ctl, t).workers, s.kafka);
    case Wake(w) => MovesKeep(s.store, s.ctl.workers, Notified(s.ctl, w).workers, s.kafka);
    case Work(w, c) =>
      if !Holds(s.ctl.workers[w]) { IdleHistory(s, w, c); }
      else if s.ctl.workers[w].Delete? { DeleteHistory(s, w, c); }
      else { HandleHistory(s, w, c); }
    case _ =>
  }
}
