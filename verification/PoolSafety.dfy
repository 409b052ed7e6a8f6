/** Safety over every run of the pool: any number of workers, any interleaving, any environment. */
module PoolSafety {
  import opened Bytes
  import opened PsPacket
  import opened Requests
  import opened ClientRequests
  import opened PoolModel
  import opened PoolControl
  import opened PoolOwnership
  import opened PoolHistory
  import opened PoolReplies

  ghost predicate PoolInv(s: State) {
    ControlInv(s) && OwnershipInv(s) && HistoryInv(s) && ReplyInv(s)
  }

  lemma Parts(s: State)
    requires PoolInv(s)
    ensures ControlInv(s) && OwnershipInv(s) && HistoryInv(s) && ReplyInv(s)
  {
    hide ControlInv, OwnershipInv, HistoryInv, ReplyInv;
  }

  lemma InitiallyHolds(n: nat, kafka: bool)
    ensures PoolInv(Initial(n, kafka))
  {
  }

  lemma InvKept(s: State, a: Action)
    requires PoolInv(s) && Enabled(s, a)
    ensures PoolInv(Step(s, a))
  {
    hide ControlInv, OwnershipInv, HistoryInv, ReplyInv, Step, Enabled;
    ControlKept(s, a);
    OwnershipKept(s, a);
    HistoryKept(s, a);
    ReplyKept(s, a);
  }

  lemma {:induction false} InvAlong(s: State, run: seq<Action>)
    requires PoolInv(s) && Valid(s, run)
    ensures PoolInv(Exec(s, run))
    decreases |run|
  {
    hide PoolInv, Step, Enabled;
    if run != [] {
      InvAlong(s, run[..|run| - 1]);
      InvKept(Exec(s, run[..|run| - 1]), run[|run| - 1]);
    }
  }

  // ---- runs, one step or one piece longer ----

  lemma Extend(s: State, run: seq<Action>, a: Action)
    requires Valid(s, run) && Enabled(Exec(s, run), a)
    ensures Valid(s, run + [a]) && Exec(s, run + [a]) == Step(Exec(s, run), a)
  {
    assert (run + [a])[..|run|] == run;
  }

  lemma {:induction false} ExecConcat(s: State, run: seq<Action>, more: seq<Action>)
    requires Valid(s, run) && Valid(Exec(s, run), more)
    ensures Valid(s, run + more) && Exec(s, run + more) == Exec(Exec(s, run), more)
    decreases |more|
  {
    hide Step, Enabled;
    if more == [] {
      assert run + more == run;
    } else {
      var last := |more| - 1;
      ExecConcat(s, run, more[..last]);
      assert (run + more)[..|run| + last] == run + more[..last];
    }
  }

  /** The states the program can reach. */
  ghost predicate Run(n: nat, kafka: bool, run: seq<Action>, s: State) {
    Valid(Initial(n, kafka), run) && s == Exec(Initial(n, kafka), run)
  }

  lemma RunInv(n: nat, kafka: bool, run: seq<Action>, s: State)
    requires Run(n, kafka, run, s)
    ensures PoolInv(s) && s.n == n && s.kafka == kafka
  {
    InitiallyHolds(n, kafka);
    hide PoolInv;
    InvAlong(Initial(n, kafka), run);
    SameConfig(Initial(n, kafka), run);
  }

  lemma {:induction false} SameConfig(s: State, run: seq<Action>)
    requires Valid(s, run)
    ensures Exec(s, run).n == s.n && Exec(s, run).kafka == s.kafka
    decreases |run|
  {
    hide Enabled;
    if run != [] {
      SameConfig(s, run[..|run| - 1]);
    }
  }

  /**
   No run touches a request before it is pushed or after it is deleted, deletes one twice, uses a freed
   connection, or reads the socket or the producer before `Initialize` set them.
   */
  lemma NeverFaults(n: nat, kafka: bool, run: seq<Action>, s: State)
    requires Run(n, kafka, run, s)
    ensures !s.store.fault
    ensures forall w :: 0 <= w < |s.ctl.workers| && WorkerEnabled(s.ctl, w) ==> !Faults(s, w)
  {
    hide Run;
    RunInv(n, kafka, run, s);
    forall w | 0 <= w < |s.ctl.workers| && WorkerEnabled(s.ctl, w) ensures !Faults(s, w) {
      hide Faults, WorkerEnabled, ControlInv, OwnershipInv;
      NoFault(s, w);
    }
  }

  /** Every pushed request is queued, held by one worker, or deleted: exactly one of them, exactly once. */
  lemma RequestsConserved(n: nat, kafka: bool, run: seq<Action>, s: State)
    requires Run(n, kafka, run, s)
    ensures multiset(s.store.pushed)
         == multiset(s.store.queue) + HeldIds(s.ctl.workers) + multiset(s.store.deleted)
    ensures forall r :: multiset(s.store.pushed)[r] <= 1
    ensures s.store.heap.Keys == set r | r in multiset(s.store.queue) + HeldIds(s.ctl.workers)
  {
    hide Run, OwnershipInv;
    RunInv(n, kafka, run, s);
    Conservation(s);
  }

  /** Pops follow pushes, and at most `n` popped requests are not yet deleted. */
  lemma ArrivalOrder(n: nat, kafka: bool, run: seq<Action>, s: State)
    requires Run(n, kafka, run, s)
    ensures |s.store.popped| <= |s.store.pushed| && s.store.popped == s.store.pushed[..|s.store.popped|]
    ensures multiset(s.store.deleted) <= multiset(s.store.pushed[..|s.store.popped|])
    ensures |s.store.popped| - n <= |s.store.deleted| <= |s.store.popped|
  {
    hide Run, ControlInv, OwnershipInv;
    RunInv(n, kafka, run, s);
    InFlightWindow(s);
  }

  /** No two workers are inside `SendResultToClient`, or own the queue lock, at once. */
  lemma MutualExclusion(n: nat, kafka: bool, run: seq<Action>, s: State, v: nat, w: nat)
    requires Run(n, kafka, run, s) && v < w < |s.ctl.workers|
    ensures !(OwnsSocket(s.ctl.workers[v]) && OwnsSocket(s.ctl.workers[w]))
    ensures !(OwnsLock(s.ctl.workers[v]) && OwnsLock(s.ctl.workers[w]))
    ensures Holds(s.ctl.workers[v]) && Holds(s.ctl.workers[w]) ==> s.ctl.workers[v].r != s.ctl.workers[w].r
  {
    hide Run;
    RunInv(n, kafka, run, s);
    if Holds(s.ctl.workers[v]) && Holds(s.ctl.workers[w]) {
      Exclusive(s, v);
    }
  }

  /**
   A deleted request expired, three seconds old or older, or failed in the database, or was answered; the
   three exclude one another.
   */
  lemma ExactOutcome(n: nat, kafka: bool, run: seq<Action>, s: State, r: nat)
    requires Run(n, kafka, run, s) && r in s.store.deleted
    ensures r in s.store.life
    ensures var h := s.store.life[r];
            && |h| > 0 && h[|h| - 1] == Freed
            && var before := h[..|h| - 1];
               && (Expired(before) || DbFailed(before) || Answered(before, kafka))
               && !(Expired(before) && DbFailed(before))
               && !(Expired(before) && Answered(before, kafka))
               && !(DbFailed(before) && Answered(before, kafka))
               && (Answered(before, kafka) <==> exists i :: 0 <= i < |s.store.wire| && s.store.wire[i].r == r)
               && (Expired(before) <==> before[0].Discarded? && before[0].age >= 3_000_000_000)
               && (!Expired(before) <==> before[0].Started? && before[0].age < 3_000_000_000)
               && (DbFailed(before) ==> |before| == 2 && before[1] == Failed(-100))
               && (Answered(before, kafka) ==> |before| <= 4 && before[1].Returned? && before[2].SendTried?)
  {
    hide Run;
    RunInv(n, kafka, run, s);
    hide ControlInv, OwnershipInv, Sent, HeapMatches, ReplyMatches;
    var h := s.store.life[r];
    assert Complete(h, kafka);
    if Answered(h[..|h| - 1], kafka) {
      assert SendDone(h);
    }
    forall i | 0 <= i < |s.store.wire| && s.store.wire[i].r == r ensures Answered(h[..|h| - 1], kafka) {
      assert s.store.wire[i].Answer?;
      assert SendDone(h);
    }
  }

  // ---- nothing is overlooked ----

  predicate HasReply(m: Store, r: nat) { exists i :: 0 <= i < |m.wire| && m.wire[i].r == r }

  /** Every packet dispatched was pushed as a request or answered at once. */
  ghost predicate Disposed(s: State) {
    forall r :: 0 <= r < |s.intake.received| ==> r in s.store.pushed || HasReply(s.store, r)
  }

  lemma DisposedKept(s: State, a: Action)
    requires Disposed(s) && Enabled(s, a)
    ensures Disposed(Step(s, a))
  {
    hide *;
    OnlyGrows(s, a);
    DisposedGrows(s, Step(s, a));
  }

  /** Nothing pushed is forgotten, nothing sent is taken back, and a packet dispatched is pushed or answered. */
  lemma OnlyGrows(s: State, a: Action)
    requires Enabled(s, a)
    ensures var (m, m') := (s.store, Step(s, a).store);
            && (m.pushed <= m'.pushed && m.wire <= m'.wire)
            && var (before, after) := (s.intake.received, Step(s, a).intake.received);
               || after == before
               || (|after| == |before| + 1 && (|before| in m'.pushed || HasReply(m', |before|)))
  {
    hide Dispatched, Effect, IsView, StepMain, WorkerEnabled, MainEnabled, Notified, OutcomeOf;
    match a
    case Dispatch(view, now, unset) => DispatchGrows(s.store, s.intake, view, now, unset);
    case Work(w, c) => EffectGrows(s, w, c);
    case _ =>
  }

  lemma DispatchGrows(m: Store, i: Intake, view: AttrMap, now: int64, unset: Outputs)
    requires i.inbox != []
    ensures var m' := Dispatched(m, i, view, now, unset);
            && m.pushed <= m'.pushed && m.wire <= m'.wire
            && (|i.received| in m'.pushed || HasReply(m', |i.received|))
  {
    hide OutcomeOf;
    var m', r := Dispatched(m, i, view, now, unset), |i.received|;
    if OutcomeOf(i, view).Accepted? {
      assert m'.pushed[|m.pushed|] == r;
    } else {
      assert m'.wire[|m.wire|].r == r;
    }
  }

  lemma EffectGrows(s: State, w: nat, c: Choice)
    requires WorkerEnabled(s.ctl, w)
    ensures s.store.pushed == Effect(s, w, c).pushed && s.store.wire <= Effect(s, w, c).wire
  {
    hide KafkaRecord, Processed, FailedRequest, Age, Faults, WorkerEnabled;
  }

  lemma DisposedGrows(s: State, t: State)
    requires Disposed(s) && s.store.pushed <= t.store.pushed && s.store.wire <= t.store.wire
    requires var (before, after) := (s.intake.received, t.intake.received);
             || after == before
             || (|after| == |before| + 1 && (|before| in t.store.pushed || HasReply(t.store, |before|)))
    ensures Disposed(t)
  {
    forall r | 0 <= r < |s.intake.received| ensures r in t.store.pushed || HasReply(t.store, r) {
      if r in s.store.pushed {
        assert r in t.store.pushed;
      } else {
        var i :| 0 <= i < |s.store.wire| && s.store.wire[i].r == r;
        assert t.store.wire[i] == s.store.wire[i];
      }
    }
  }

  lemma {:induction false} DisposedAlong(s: State, run: seq<Action>)
    requires Disposed(s) && Valid(s, run)
    ensures Disposed(Exec(s, run))
    decreases |run|
  {
    hide Disposed, Step, Enabled;
    if run != [] {
      DisposedAlong(s, run[..|run| - 1]);
      DisposedKept(Exec(s, run[..|run| - 1]), run[|run| - 1]);
    }
  }

  /** The request was discarded for its age, or its database call failed, and it is deleted. */
  predicate ClosedSilently(m: Store, r: nat) {
    && r in m.deleted && r in m.life
    && var h := m.life[r];
       |h| > 0 && (Expired(h[..|h| - 1]) || DbFailed(h[..|h| - 1]))
  }

  /**
   Once every pushed request is deleted, every packet dispatched has its reply on the wire, except exactly
   the requests that expired or failed in the database.
   */
  lemma EveryPacketSettled(n: nat, kafka: bool, run: seq<Action>, s: State, r: nat)
    requires Run(n, kafka, run, s) && r < |s.intake.received|
    requires multiset(s.store.pushed) == multiset(s.store.deleted)
    ensures HasReply(s.store, r) <==> !ClosedSilently(s.store, r)
  {
    assert Disposed(s) by {
      hide Disposed;
      assert Disposed(Initial(n, kafka)) by { InitiallyDisposed(n, kafka); }
      DisposedAlong(Initial(n, kafka), run);
    }
    assert r in multiset(s.store.pushed) <==> r in multiset(s.store.deleted);
    hide Run, Answered, Expired, DbFailed;
    if r in s.store.deleted {
      ExactOutcome(n, kafka, run, s, r);
    }
  }

  lemma InitiallyDisposed(n: nat, kafka: bool)
    ensures Disposed(Initial(n, kafka))
  {
  }

  // ---- end to end ----

  /** The bytes of a reply. */
  function ReplyBytes(reply: Reply): seq<byte> {
    match reply
    case AliveReply(_, _, num) => AliveBytes(num)
    case Rejection(_, _, num, descr) => RejectionBytes(num, descr)
    case Answer(_, q) => ResponseBytes(q)
  }

  function ReplyAttrs(reply: Reply): seq<Attr> {
    match reply
    case AliveReply(_, _, _) => []
    case Rejection(_, _, _, descr) => RejectionAttrs(descr)
    case Answer(_, q) => ResponseAttrs(q)
  }

  function Destination(reply: Reply): Addr {
    if reply.Answer? then reply.request.addr else reply.to
  }

  /** The type of the reply to a packet: rejections use the SMS response type whatever was asked. */
  function ReplyKind(reply: Reply, asked: uint16): uint16 {
    if reply.AliveReply? then I_AM_ALIVE
    else if reply.Rejection? || asked == VALIDATEEX_REQ then VALIDATEEX_RESP
    else if asked == QUOTA_REQ then QUOTA_RESP
    else CALL_FINISH_ACK
  }

  /** The bytes are one packet with this content. */
  predicate ParsesTo(bs: seq<byte>, num: uint32, kind: uint16, attrs: seq<Attr>) {
    var p := Parse(bs);
    p.Some? && p.value.len == |bs| && (p.value.num, p.value.kind, p.value.attrs) == (num, kind, attrs)
  }

  /**
   Every datagram sent answers one packet received before it: it goes to that packet's sender, carries its
   request number and the type its type calls for, and no two datagrams answer the same packet. A rejection
   gives the reason validation refuses the packet with; an answered request has the packet's parameters.
   */
  lemma EveryReplyAnswersOnePacket(n: nat, kafka: bool, run: seq<Action>, s: State, i: nat)
    requires Run(n, kafka, run, s) && i < |s.store.wire|
    ensures var reply := s.store.wire[i];
            && reply.r < |s.intake.received|
            && var p := s.intake.received[reply.r];
               && Destination(reply) == p.from
               && (reply.AliveReply? <==> p.kind == ARE_Y_ALIVE)
               && (reply.Rejection? ==> RejectedAs(p, reply.descr))
               && (reply.Answer? ==> AcceptedAs(p, reply.request.params))
               && ParsesTo(ReplyBytes(reply), p.num, ReplyKind(reply, p.kind), ReplyAttrs(reply))
    ensures forall j :: 0 <= j < |s.store.wire| && j != i ==> s.store.wire[j].r != s.store.wire[i].r
  {
    hide Run;
    RunInv(n, kafka, run, s);
    hide ControlInv, OwnershipInv, HistoryInv;
    var reply := s.store.wire[i];
    assert ReplyMatches(reply, s.intake.received);
    ReplyParses(reply, s.intake.received);
    ReplyAsked(reply, s.intake.received);
  }

  /** The packet types a reply can come from. */
  lemma ReplyAsked(reply: Reply, received: seq<Packet>)
    requires ReplyMatches(reply, received)
    ensures var kind := received[reply.r].kind;
            && (reply.Rejection? ==> kind != ARE_Y_ALIVE)
            && (reply.Answer? ==> RequestKind(reply.request.params) == kind)
  {
    var p := received[reply.r];
    if reply.Rejection? {
      var view :| IsView(p.attrs, view) && Classify(p.kind, view) == Rejected(reply.descr);
    } else if reply.Answer? {
      AcceptedHasKind(p, reply.request.params);
    }
  }

  lemma AcceptedHasKind(p: Packet, params: Params)
    requires AcceptedAs(p, params)
    ensures RequestKind(params) == p.kind
  {
    var view :| IsView(p.attrs, view) && Classify(p.kind, view).Accepted?
                && Asked(Classify(p.kind, view).params) == Asked(params);
    AcceptedKind(p.kind, view);
    hide Classify;
  }

  lemma ReplyParses(reply: Reply, received: seq<Packet>)
    requires ReplyMatches(reply, received)
    ensures var p := received[reply.r];
            ParsesTo(ReplyBytes(reply), p.num, ReplyKind(reply, p.kind), ReplyAttrs(reply))
  {
    assert ReplyBytes(reply) + [] == ReplyBytes(reply);
    ReplyAsked(reply, received);
    hide AcceptedAs, RejectedAs;
    match reply
    case AliveReply(_, _, num) => ParseBuild(num, I_AM_ALIVE, [], []);
    case Rejection(_, _, num, descr) =>
      RejectionFits(num, descr);
      ParseBuild(num, VALIDATEEX_RESP, RejectionAttrs(descr), []);
    case Answer(_, q) =>
      PlainResponseFits(q);
      hide ResponseAttrs;
      ParseBuild(q.num, ResponseKind(q.params), ResponseAttrs(q), []);
  }

  /** No worker response carries a description, so each fits its buffer with room to spare. */
  lemma AnswersArePlain(n: nat, kafka: bool, run: seq<Action>, s: State, i: nat)
    requires Run(n, kafka, run, s) && i < |s.store.wire| && s.store.wire[i].Answer?
    ensures s.store.wire[i].request.resultDescr == ""
    ensures ResponseFits(s.store.wire[i].request) && |ResponseBytes(s.store.wire[i].request)| <= 26
    ensures forall a :: a in ResponseAttrs(s.store.wire[i].request) ==> a.kind != PS_DESCR
  {
    var q := s.store.wire[i].request;
    hide Run;
    RunInv(n, kafka, run, s);
    hide ControlInv, OwnershipInv, HistoryInv, ResponseAttrs, ResponseFits;
    assert ReplyMatches(s.store.wire[i], s.intake.received);
    PlainResponseFits(q);
    PlainHasNoDescr(q);
  }

  lemma PlainHasNoDescr(q: Request)
    requires q.resultDescr == ""
    ensures forall a :: a in ResponseAttrs(q) ==> a.kind != PS_DESCR
  {
  }

  /** Packets dispatched are alive replies, rejections and pushes, and nothing else. */
  lemma DispatchesCounted(n: nat, kafka: bool, run: seq<Action>, s: State)
    requires Run(n, kafka, run, s)
    ensures |s.intake.received| == |s.store.pushed| + Direct(s.store.wire)
    ensures forall i :: 0 <= i < |s.store.wire| && !s.store.wire[i].Answer? ==> s.store.wire[i].r !in s.store.pushed
  {
    hide Run;
    RunInv(n, kafka, run, s);
  }
}
