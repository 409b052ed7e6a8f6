/** What the packets of a datagram amount to: datagrams sent at once, and requests queued. */
module Dispatching {
  import opened Bytes
  import opened PsPacket
  import opened ClientRequests
  import opened Requests
  import opened PoolModel
  import opened PoolOwnership
  import opened PoolSafety

  // ---- what the dispatches of a datagram amount to ----

  /** One view for each packet. */
  predicate ViewsOf(ps: seq<Parsed>, views: seq<AttrMap>) {
    |views| == |ps| && forall i :: 0 <= i < |ps| ==> IsView(ps[i].attrs, views[i])
  }

  /** The datagrams the server itself sends for a packet. */
  function DirectReply(p: Parsed, view: AttrMap, from: Addr): seq<Datagram> {
    ReplyTo(Classify(p.kind, view), p.num, from)
  }

  function ReplyTo(outcome: Outcome, num: uint32, from: Addr): seq<Datagram> {
    match outcome
    case Alive => [Datagram(from, AliveBytes(num))]
    case Rejected(descr) => [Datagram(from, RejectionBytes(num, descr))]
    case Accepted(_) => []
  }

  function DirectReplies(ps: seq<Parsed>, views: seq<AttrMap>, from: Addr): seq<Datagram>
    requires |views| == |ps|
  {
    if ps == [] then []
    else
      var last := |ps| - 1;
      DirectReplies(ps[..last], views[..last], from) + DirectReply(ps[last], views[last], from)
  }

  /** What identifies a queued request before it is processed. */
  datatype Queued = Queued(addr: Addr, num: uint32, accepted: int64, params: Params)

  /** `clock(k)` is the time packet `k` is taken up. */
  function Pushes(ps: seq<Parsed>, views: seq<AttrMap>, from: Addr, clock: nat -> int64): seq<Queued>
    requires |views| == |ps|
  {
    if ps == [] then []
    else
      var last := |ps| - 1;
      Pushes(ps[..last], views[..last], from, clock) + Push(ps[last], views[last], from, clock(last))
  }

  function Push(p: Parsed, view: AttrMap, from: Addr, now: int64): seq<Queued> {
    PushFor(Classify(p.kind, view), p.num, from, now)
  }

  function PushFor(outcome: Outcome, num: uint32, from: Addr, now: int64): seq<Queued> {
    if outcome.Accepted? then [Queued(from, num, now, outcome.params)] else []
  }

  /** Alive replies, rejections and pushes add up to the packets. */
  lemma {:induction false} DispatchesAddUp(ps: seq<Parsed>, views: seq<AttrMap>, from: Addr, clock: nat -> int64)
    requires |views| == |ps|
    ensures |DirectReplies(ps, views, from)| + |Pushes(ps, views, from, clock)| == |ps|
  {
    hide Classify;
    if ps != [] {
      DispatchesAddUp(ps[..|ps| - 1], views[..|ps| - 1], from, clock);
    }
  }

  lemma NoDispatches(from: Addr, clock: nat -> int64)
    ensures DirectReplies([], [], from) == [] && Pushes([], [], from, clock) == []
  {
  }

  lemma OneDispatchOn(ps: seq<Parsed>, views: seq<AttrMap>, p: Parsed, view: AttrMap, from: Addr, clock: nat -> int64)
    requires |views| == |ps|
    ensures DirectReplies(ps + [p], views + [view], from) == DirectReplies(ps, views, from) + DirectReply(p, view, from)
    ensures Pushes(ps + [p], views + [view], from, clock)
         == Pushes(ps, views, from, clock) + Push(p, view, from, clock(|ps|))
  {
    hide DirectReply, Push;
    assert (ps + [p])[..|ps|] == ps && (views + [view])[..|ps|] == views;
  }

  // ---- the same, as a step of the pool's transition system ----

  /** The datagrams on the wire, as the socket sees them. */
  function OnWire(wire: seq<Reply>): seq<Datagram> {
    seq(|wire|, i requires 0 <= i < |wire| => Datagram(Destination(wire[i]), ReplyBytes(wire[i])))
  }

  /** Each reply leaves as one datagram to its client, and no other. */
  lemma DatagramIs(wire: seq<Reply>, i: nat)
    requires i < |wire|
    ensures |OnWire(wire)| == |wire|
    ensures OnWire(wire)[i]
         == match wire[i]
            case AliveReply(_, to, num) => Datagram(to, AliveBytes(num))
            case Rejection(_, to, num, descr) => Datagram(to, RejectionBytes(num, descr))
            case Answer(_, q) => Datagram(q.addr, ResponseBytes(q))
  {
  }

  function Waiting(r: Request): Queued { Queued(r.addr, r.num, r.accepted, r.params) }

  /** Every queued request is alive. */
  ghost predicate QueueAlive(m: Store) {
    forall r :: r in m.queue ==> r in m.heap
  }

  /** The queue, oldest request first. */
  ghost function Contents(m: Store): (s: seq<Queued>)
    requires QueueAlive(m)
    ensures |s| == |m.queue|
  {
    seq(|m.queue|, i requires 0 <= i < |m.queue| => Waiting(m.heap[m.queue[i]]))
  }

  lemma DispatchStep(s: State, view: AttrMap, now: int64, unset: Outputs)
    requires Enabled(s, Dispatch(view, now, unset))
    ensures var s', i, m := Step(s, Dispatch(view, now, unset)), s.intake, s.store;
            var p, r, i' := i.inbox[0], |i.received|, Taken(i);
            match Classify(p.kind, view)
            case Alive => s' == s.(intake := i', store := m.(wire := m.wire + [AliveReply(r, i.sender, p.num)]))
            case Rejected(descr) =>
              s' == s.(intake := i', store := m.(wire := m.wire + [Rejection(r, i.sender, p.num, descr)]))
            case Accepted(params) =>
              s' == s.(ctl := s.ctl.(main := Notify), intake := i',
                       store := m.(heap := m.heap[r := NewRequest(i.sender, p.num, now, params, unset)],
                                   queue := m.queue + [r], pushed := m.pushed + [r], life := m.life[r := []]))
  {
    hide Classify, IsView, NewRequest;
  }

  /**
   A dispatch step sends and queues what validation decides about the packet read through that view, and
   nothing else.
   */
  lemma DispatchAgrees(s: State, view: AttrMap, now: int64, unset: Outputs)
    requires OwnershipInv(s) && Enabled(s, Dispatch(view, now, unset))
    ensures var p, m, m' := s.intake.inbox[0], s.store, Step(s, Dispatch(view, now, unset)).store;
            && OnWire(m'.wire) == OnWire(m.wire) + DirectReply(p, view, s.intake.sender)
            && QueueAlive(m) && QueueAlive(m')
            && Contents(m') == Contents(m) + Push(p, view, s.intake.sender, now)
  {
    hide OwnershipInv, Classify, IsView, AliveBytes, RejectionBytes, ResponseBytes, Step;
    QueuedBelow(s);
    DispatchStep(s, view, now, unset);
    var i, m, m' := s.intake, s.store, Step(s, Dispatch(view, now, unset)).store;
    match Classify(i.inbox[0].kind, view)
    case Alive =>
    case Rejected(_) =>
    case Accepted(params) =>
      hide Enabled;
      PushGrows(m, m', |i.received|, NewRequest(i.sender, i.inbox[0].num, now, params, unset));
  }

  lemma PushGrows(m: Store, m': Store, r: nat, q: Request)
    requires forall k :: k in m.queue ==> k < r && k in m.heap
    requires m'.heap == m.heap[r := q] && m'.queue == m.queue + [r]
    ensures QueueAlive(m) && QueueAlive(m')
    ensures Contents(m') == Contents(m) + [Waiting(q)]
  {
  }

  lemma QueuedBelow(s: State)
    requires OwnershipInv(s)
    ensures forall r :: r in s.store.queue ==> r < |s.intake.received| && r in s.store.heap
  {
    assert forall r :: r in s.store.queue ==> r in s.store.pushed;
  }
}
