/**
 What leaves the socket over a whole run: every datagram answers a packet received earlier, no packet is
 answered twice, and the request number, the address and the packet type are the ones that packet calls for.
 */
module PoolReplies {
  import opened Bytes
  import opened PsPacket
  import opened Requests
  import opened ClientRequests
  import opened Framing
  import opened PoolModel
  import opened PoolControl
  import opened PoolOwnership
  import opened PoolHistory

  /** Validation accepts the packet, with these parameters. */
  ghost predicate AcceptedAs(p: Packet, params: Params) {
    exists view :: IsView(p.attrs, view) && Classify(p.kind, view).Accepted?
                   && Asked(Classify(p.kind, view).params) == Asked(params)
  }

  /** The packet type is unknown, or validation refuses the packet, with this text. */
  ghost predicate RejectedAs(p: Packet, descr: string) {
    exists view :: IsView(p.attrs, view) && Classify(p.kind, view) == Rejected(descr)
  }

  ghost predicate RequestMatches(q: Request, p: Packet) {
    q.num == p.num && q.addr == p.from && AcceptedAs(p, q.params)
  }

  /** The reply suits the packet it answers. */
  ghost predicate ReplyMatches(reply: Reply, received: seq<Packet>) {
    && reply.r < |received|
    && var p := received[reply.r];
       match reply
       case AliveReply(_, to, num) => to == p.from && num == p.num && p.kind == ARE_Y_ALIVE
       case Rejection(_, to, num, descr) => to == p.from && num == p.num && RejectedAs(p, descr) && |descr| <= 200
       case Answer(_, q) => RequestMatches(q, p) && q.resultDescr == ""
  }

  predicate SendDone(h: seq<Event>) {
    |h| >= 3 && h[1].Returned? && h[2].SendTried?
  }

  /** Replies sent by the main thread itself. */
  function Direct(wire: seq<Reply>): nat {
    if wire == [] then 0 else Direct(wire[..|wire| - 1]) + if wire[|wire| - 1].Answer? then 0 else 1
  }

  ghost predicate HeapMatches(m: Store, received: seq<Packet>) {
    forall r :: r in m.heap ==> r < |received| && RequestMatches(m.heap[r], received[r])
  }

  predicate OncePerPacket(wire: seq<Reply>) {
    forall i, j :: 0 <= i < j < |wire| ==> wire[i].r != wire[j].r
  }

  /** The answers on the wire are those of the requests whose histories say a send was attempted. */
  ghost predicate AnswersRecorded(m: Store) {
    && (forall i :: 0 <= i < |m.wire| && m.wire[i].Answer? ==> m.wire[i].r in m.life && SendDone(m.life[m.wire[i].r]))
    && (forall i :: 0 <= i < |m.wire| && !m.wire[i].Answer? ==> m.wire[i].r !in m.life)
    && (forall r :: r in m.life && SendDone(m.life[r]) ==> Answer(r, m.life[r][1].after) in m.wire)
  }

  ghost predicate WireMatches(wire: seq<Reply>, received: seq<Packet>) {
    forall i :: 0 <= i < |wire| ==> ReplyMatches(wire[i], received)
  }

  ghost predicate Replies(m: Store, received: seq<Packet>) {
    && HeapMatches(m, received)
    && WireMatches(m.wire, received)
    && OncePerPacket(m.wire)
    && AnswersRecorded(m)
    && |received| == |m.pushed| + Direct(m.wire)
  }

  ghost predicate ReplyInv(s: State) {
    && Replies(s.store, s.intake.received)
    && (forall i :: 0 <= i < |s.intake.inbox| ==> SmallData(s.intake.inbox[i].attrs))
    && (forall i :: 0 <= i < |s.intake.received| ==> SmallData(s.intake.received[i].attrs))
  }

  // ---- packets come with small attributes, so rejections are short ----

  lemma {:induction false} PacketsSmall(bs: seq<byte>)
    ensures forall i :: 0 <= i < |Packets(bs)| ==> SmallData(Packets(bs)[i].attrs)
    decreases |bs|
  {
    if Parse(bs).Some? {
      ParsedDataSmall(bs[HEADER_SIZE..Parse(bs).value.len]);
      PacketsSmall(bs[Parse(bs).value.len..]);
    }
  }

  lemma RejectionShort(kind: uint16, attrs: seq<Attr>, view: AttrMap)
    requires SmallData(attrs) && IsView(attrs, view) && Classify(kind, view).Rejected?
    ensures |Classify(kind, view).descr| <= 200
  {
    forall t | t in view ensures |view[t]| < 0x1_0000 {
      assert Attr(t, view[t]) in attrs;
    }
    RejectionTextLength(kind, view);
  }

  // ---- steps of the main thread ----

  lemma DirectSnoc(wire: seq<Reply>, reply: Reply)
    ensures Direct(wire + [reply]) == Direct(wire) + if reply.Answer? then 0 else 1
  {
    assert (wire + [reply])[..|wire|] == wire;
  }

  lemma RepliedDirectly(m: Store, received: seq<Packet>, p: Packet, reply: Reply)
    requires Replies(m, received) && InOrder(m, |received|) && (forall r :: r in m.life <==> r in m.pushed)
    requires !reply.Answer? && reply.r == |received| && ReplyMatches(reply, received + [p])
    ensures Replies(m.(wire := m.wire + [reply]), received + [p])
  {
    var m' := m.(wire := m.wire + [reply]);
    assert reply.r !in m.life;
    hide *;
    PieceByPiece(m, received);
    DirectSnoc(m.wire, reply);
    MatchesGrow(m, received, p);
    DirectOnWire(m, received, p, reply);
    HeapMatchesGrow(m, m', received, p);
    PieceTogether(m', received + [p]);
  }

  lemma DirectOnWire(m: Store, received: seq<Packet>, p: Packet, reply: Reply)
    requires WireMatches(m.wire, received + [p]) && OncePerPacket(m.wire) && AnswersRecorded(m)
    requires WireMatches(m.wire, received) && !reply.Answer? && reply.r == |received| && reply.r !in m.life
    requires ReplyMatches(reply, received + [p])
    ensures WireMatches(m.wire + [reply], received + [p]) && OncePerPacket(m.wire + [reply])
    ensures AnswersRecorded(m.(wire := m.wire + [reply]))
  {
    assert forall i :: 0 <= i < |m.wire| ==> ReplyMatches(m.wire[i], received);
    hide RequestMatches, RejectedAs, SendDone;
  }

  lemma HeapMatchesGrow(m: Store, m': Store, received: seq<Packet>, p: Packet)
    requires HeapMatches(m, received) && m'.heap == m.heap
    ensures HeapMatches(m', received + [p])
  {
    hide RequestMatches;
  }

  lemma PushedNoReply(m: Store, received: seq<Packet>, p: Packet, q: Request)
    requires Replies(m, received) && InOrder(m, |received|) && (forall r :: r in m.life <==> r in m.pushed)
    requires RequestMatches(q, p)
    ensures var r := |received|;
            Replies(m.(heap := m.heap[r := q], queue := m.queue + [r], pushed := m.pushed + [r],
                       life := m.life[r := []]), received + [p])
  {
    var r := |received|;
    var m' := m.(heap := m.heap[r := q], queue := m.queue + [r], pushed := m.pushed + [r], life := m.life[r := []]);
    assert r !in m.life && forall i :: 0 <= i < |m.wire| ==> m.wire[i].r != r;
    hide *;
    PieceByPiece(m, received);
    NewHistory(m, m', r);
    MatchesGrow(m, received, p);
    NewObject(m, m', received, p, q);
    PieceTogether(m', received + [p]);
  }

  lemma PieceByPiece(m: Store, received: seq<Packet>)
    requires Replies(m, received)
    ensures HeapMatches(m, received) && WireMatches(m.wire, received) && OncePerPacket(m.wire)
    ensures AnswersRecorded(m) && |received| == |m.pushed| + Direct(m.wire)
  {
  }

  lemma PieceTogether(m: Store, received: seq<Packet>)
    requires HeapMatches(m, received) && WireMatches(m.wire, received) && OncePerPacket(m.wire)
    requires AnswersRecorded(m) && |received| == |m.pushed| + Direct(m.wire)
    ensures Replies(m, received)
  {
  }

  lemma MatchesGrow(m: Store, received: seq<Packet>, p: Packet)
    requires WireMatches(m.wire, received)
    ensures WireMatches(m.wire, received + [p])
  {
    hide RequestMatches, RejectedAs;
    forall i | 0 <= i < |m.wire| ensures ReplyMatches(m.wire[i], received + [p]) {
      assert ReplyMatches(m.wire[i], received);
    }
  }

  lemma NewObject(m: Store, m': Store, received: seq<Packet>, p: Packet, q: Request)
    requires HeapMatches(m, received) && m'.heap == m.heap[|received| := q] && RequestMatches(q, p)
    ensures HeapMatches(m', received + [p])
  {
    hide RequestMatches;
  }

  lemma NewHistory(m: Store, m': Store, r: nat)
    requires AnswersRecorded(m) && r !in m.life && forall i :: 0 <= i < |m.wire| ==> m.wire[i].r != r
    requires m'.wire == m.wire && m'.life == m.life[r := []]
    ensures AnswersRecorded(m')
  {
    assert !SendDone([]);
    hide SendDone;
  }

  lemma DispatchReplies(s: State, view: AttrMap, now: int64, unset: Outputs)
    requires OwnershipInv(s) && ReplyInv(s) && s.intake.inbox != [] && IsView(s.intake.inbox[0].attrs, view)
    ensures Replies(Dispatched(s.store, s.intake, view, now, unset), Taken(s.intake).received)
  {
    var i, m := s.intake, s.store;
    var p, r := i.inbox[0], |i.received|;
    hide Replies;
    match OutcomeOf(i, view)
    case Alive =>
      RepliedDirectly(m, i.received, Packet(i.sender, p.num, p.kind, p.attrs), AliveReply(r, i.sender, p.num));
    case Rejected(descr) =>
      RejectionShort(p.kind, p.attrs, view);
      RepliedDirectly(m, i.received, Packet(i.sender, p.num, p.kind, p.attrs), Rejection(r, i.sender, p.num, descr));
    case Accepted(params) =>
      PushedNoReply(m, i.received, Packet(i.sender, p.num, p.kind, p.attrs),
                    NewRequest(i.sender, p.num, now, params, unset));
  }

  // ---- steps of a worker ----

  /** The history of one request grows, by something else than a send attempt, and its object keeps its identity. */
  lemma QuietReplies(m: Store, m': Store, received: seq<Packet>, r: nat)
    requires Replies(m, received) && m'.wire == m.wire && m'.pushed == m.pushed
    requires m'.life.Keys == m.life.Keys && AgreeExceptKeepingHeap(m, m', r) && r in m.life
    requires m'.life[r] == m.life[r] || (|m'.life[r]| == |m.life[r]| + 1 && m'.life[r][..|m.life[r]|] == m.life[r])
    requires SendDone(m'.life[r]) <==> SendDone(m.life[r])
    requires r in m'.heap ==> r in m.heap && (r < |received| ==> RequestMatches(m'.heap[r], received[r]))
    ensures Replies(m', received)
  {
    hide RequestMatches, ReplyMatches, OncePerPacket, Direct;
    assert forall k :: k in m'.life <==> k in m'.life.Keys;
    assert forall k :: k in m.life <==> k in m.life.Keys;
  }

  lemma QuietEffect(s: State, w: nat, c: Choice)
    requires WorkerEnabled(s.ctl, w) && !Faults(s, w) && HeldAt(s.store, s.ctl.workers[w], s.kafka)
    requires Holds(s.ctl.workers[w]) && !s.ctl.workers[w].Send?
    ensures var m, m', r := s.store, Effect(s, w, c), s.ctl.workers[w].r;
            && m'.wire == m.wire && m'.pushed == m.pushed && m'.life.Keys == m.life.Keys
            && AgreeExceptKeepingHeap(m, m', r)
            && (m'.life[r] == m.life[r] || (|m'.life[r]| == |m.life[r]| + 1 && m'.life[r][..|m.life[r]|] == m.life[r]))
            && (SendDone(m'.life[r]) <==> SendDone(m.life[r]))
            && (r in m'.heap ==> (m'.heap[r].num, m'.heap[r].addr) == (m.heap[r].num, m.heap[r].addr)
                                 && Asked(m'.heap[r].params) == Asked(m.heap[r].params))
  {
    hide KafkaRecord, Processed, Asked;
    var r := s.ctl.workers[w].r;
    assert s.store.life[r] + [] == s.store.life[r];
    if s.ctl.workers[w].Process? && c.db.Some? {
      ProcessedKeepsDescr(s.store.heap[r], c.db.value);
    }
  }

  ghost predicate AgreeExceptKeepingHeap(m: Store, m': Store, r: nat) {
    && (forall k :: k in m.life && k != r ==> k in m'.life && m'.life[k] == m.life[k])
    && (forall k :: k in m'.heap ==> k in m.heap && (k != r ==> m'.heap[k] == m.heap[k]))
  }

  lemma QuietStepReplies(s: State, w: nat, c: Choice)
    requires ControlInv(s) && OwnershipInv(s) && HistoryInv(s) && ReplyInv(s) && WorkerEnabled(s.ctl, w)
    requires Holds(s.ctl.workers[w]) && !s.ctl.workers[w].Send?
    ensures Replies(Effect(s, w, c), s.intake.received)
  {
    var r := s.ctl.workers[w].r;
    assert HeldAt(s.store, s.ctl.workers[w], s.kafka);
    assert r in s.store.life by { Exclusive(s, w); }
    assert r in s.store.heap ==> RequestMatches(s.store.heap[r], s.intake.received[r]);
    assert r in s.store.heap by { Exclusive(s, w); }
    hide ControlInv, OwnershipInv, HistoryInv, Replies, Effect, NextPc, Faults, HeldAt, SendDone;
    NoFault(s, w);
    QuietEffect(s, w, c);
    QuietReplies(s.store, Effect(s, w, c), s.intake.received, r);
  }

  /** A request whose send is still to come has no reply on the wire. */
  lemma NotYetOnWire(m: Store, r: nat)
    requires AnswersRecorded(m) && r in m.life && !SendDone(m.life[r])
    ensures forall i :: 0 <= i < |m.wire| ==> m.wire[i].r != r
  {
  }

  lemma SendRecorded(m: Store, r: nat, ok: bool)
    requires AnswersRecorded(m) && r in m.heap && r in m.life
    requires |m.life[r]| == 2 && m.life[r][1] == Returned(m.heap[r])
    ensures AnswersRecorded(Record(m.(wire := m.wire + [Answer(r, m.heap[r])]), r, SendTried(ok)))
  {
    NotYetOnWire(m, r);
    var m' := Record(m.(wire := m.wire + [Answer(r, m.heap[r])]), r, SendTried(ok));
    assert SendDone(m'.life[r]) && m'.life[r][1] == m.life[r][1];
    hide SendDone;
    assert Answer(r, m.heap[r]) in m'.wire;
    assert forall k :: k in m'.life && k != r ==> m'.life[k] == m.life[k];
  }

  lemma SendAdds(m: Store, received: seq<Packet>, r: nat, ok: bool)
    requires Replies(m, received) && r in m.heap && r in m.life
    requires |m.life[r]| == 2 && m.life[r][1] == Returned(m.heap[r]) && m.heap[r].resultDescr == ""
    ensures Replies(Record(m.(wire := m.wire + [Answer(r, m.heap[r])]), r, SendTried(ok)), received)
  {
    hide RequestMatches, AnswersRecorded;
    var reply := Answer(r, m.heap[r]);
    DirectSnoc(m.wire, reply);
    NotYetOnWire(m, r);
    SendRecorded(m, r, ok);
    hide SendDone;
    assert ReplyMatches(reply, received);
  }

  /** A worker at its send holds a request its database call left without a description. */
  lemma SendReady(s: State, w: nat)
    requires HistoryInv(s) && w < |s.ctl.workers| && s.ctl.workers[w].Send?
    ensures var m, r := s.store, s.ctl.workers[w].r;
            && r in m.heap && r in m.life && |m.life[r]| == 2
            && m.life[r][1] == Returned(m.heap[r]) && m.heap[r].resultDescr == ""
  {
    hide QueuedFresh, DeletedComplete;
    assert HeldAt(s.store, s.ctl.workers[w], s.kafka);
  }

  lemma SendEffect(s: State, w: nat, c: Choice)
    requires WorkerEnabled(s.ctl, w) && !Faults(s, w) && s.ctl.workers[w].Send?
    ensures var m, r := s.store, s.ctl.workers[w].r;
            && r in m.heap
            && Effect(s, w, c) == Record(m.(wire := m.wire + [Answer(r, m.heap[r])]), r, SendTried(c.sendOk))
  {
    hide KafkaRecord, Processed, FailedRequest, Age, Record;
  }

  lemma SendStepReplies(s: State, w: nat, c: Choice)
    requires ControlInv(s) && OwnershipInv(s) && HistoryInv(s) && ReplyInv(s) && WorkerEnabled(s.ctl, w)
    requires s.ctl.workers[w].Send?
    ensures Replies(Effect(s, w, c), s.intake.received)
  {
    hide ControlInv, OwnershipInv, HistoryInv, Replies, Record, Faults, Effect;
    NoFault(s, w);
    SendReady(s, w);
    SendEffect(s, w, c);
    SendAdds(s.store, s.intake.received, s.ctl.workers[w].r, c.sendOk);
  }

  lemma IdleStepReplies(s: State, w: nat, c: Choice)
    requires ReplyInv(s) && WorkerEnabled(s.ctl, w) && !Holds(s.ctl.workers[w])
    ensures Replies(Effect(s, w, c), s.intake.received)
  {
    hide Direct, OncePerPacket, ReplyMatches, RequestMatches, SendDone;
    var m' := Effect(s, w, c);
    assert (m'.life, m'.heap, m'.wire, m'.pushed) == (s.store.life, s.store.heap, s.store.wire, s.store.pushed);
  }

  lemma ReplyKept(s: State, a: Action)
    requires ControlInv(s) && OwnershipInv(s) && HistoryInv(s) && ReplyInv(s) && Enabled(s, a)
    ensures ReplyInv(Step(s, a))
  {
    hide Classify, Dispatched, Effect, NextPc, StepMain, Notified, Packets;
    hide Replies, HistoryInv, OwnershipInv, ControlInv, SmallData;
    match a
    case Receive(_, datagram) => PacketsSmall(datagram);
    case Dispatch(view, now, unset) => DispatchReplies(s, view, now, unset);
    case Work(w, c) =>
      if !Holds(s.ctl.workers[w]) { IdleStepReplies(s, w, c); }
      else if s.ctl.workers[w].Send? { SendStepReplies(s, w, c); }
      else { QuietStepReplies(s, w, c); }
    case _ =>
  }
}
