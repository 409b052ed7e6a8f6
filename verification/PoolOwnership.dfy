/**
 Who owns a pushed request: the queue, one worker, or nobody because it was deleted. Nothing is lost,
 nothing is handled twice, and no step touches an object that is not there.
 */
module PoolOwnership {
  import opened Bytes
  import opened Requests
  import opened ClientRequests
  import opened Framing
  import opened PoolModel
  import opened PoolControl

  function HeldOf(pc: Pc): multiset<nat> {
    if Holds(pc) then multiset{pc.r} else multiset{}
  }

  /** The requests the workers hold, with multiplicity. */
  function HeldIds(ws: seq<Pc>): multiset<nat> {
    if ws == [] then multiset{} else HeldIds(ws[..|ws| - 1]) + HeldOf(ws[|ws| - 1])
  }

  lemma HeldSnoc(ws: seq<Pc>, pc: Pc)
    ensures HeldIds(ws + [pc]) == HeldIds(ws) + HeldOf(pc)
  {
    assert (ws + [pc])[..|ws|] == ws;
  }

  lemma {:induction false} HeldUpdate(ws: seq<Pc>, w: nat, pc: Pc)
    requires w < |ws|
    ensures HeldOf(ws[w]) <= HeldIds(ws)
    ensures HeldIds(ws[w := pc]) == HeldIds(ws) - HeldOf(ws[w]) + HeldOf(pc)
  {
    hide HeldOf;
    var init, last := ws[..|ws| - 1], ws[|ws| - 1];
    if w == |ws| - 1 {
      assert ws[w := pc] == init + [pc];
      HeldSnoc(init, pc);
    } else {
      HeldUpdate(init, w, pc);
      assert ws[w := pc] == init[w := pc] + [last];
      HeldSnoc(init[w := pc], last);
    }
  }

  lemma {:induction false} HeldTwice(ws: seq<Pc>, v: nat, w: nat)
    requires v < w < |ws|
    ensures HeldOf(ws[v]) + HeldOf(ws[w]) <= HeldIds(ws)
  {
    if w == |ws| - 1 {
      HeldUpdate(ws[..w], v, ws[v]);
    } else {
      HeldTwice(ws[..|ws| - 1], v, w);
    }
  }

  lemma {:induction false} HeldCount(ws: seq<Pc>)
    ensures |HeldIds(ws)| <= |ws|
  {
    if ws != [] {
      HeldCount(ws[..|ws| - 1]);
    }
  }

  lemma {:induction false} HeldOfWoken(ws: seq<Pc>)
    ensures HeldIds(WakeAll(ws)) == HeldIds(ws)
  {
    if ws != [] {
      HeldOfWoken(ws[..|ws| - 1]);
      assert WakeAll(ws)[..|ws| - 1] == WakeAll(ws[..|ws| - 1]);
    }
  }

  lemma {:induction false} HeldBySomeone(ws: seq<Pc>, r: nat) returns (w: nat)
    requires r in HeldIds(ws)
    ensures w < |ws| && Holds(ws[w]) && ws[w].r == r
  {
    if r in HeldOf(ws[|ws| - 1]) {
      w := |ws| - 1;
    } else {
      w := HeldBySomeone(ws[..|ws| - 1], r);
    }
  }

  predicate Ascending(ids: seq<nat>) {
    forall i, j :: 0 <= i < j < |ids| ==> ids[i] < ids[j]
  }

  lemma {:induction false} AscendingOnce(ids: seq<nat>, r: nat)
    requires Ascending(ids)
    ensures multiset(ids)[r] <= 1
  {
    if ids != [] {
      AscendingOnce(ids[..|ids| - 1], r);
      assert ids == ids[..|ids| - 1] + [ids[|ids| - 1]];
      if r == ids[|ids| - 1] {
        assert r !in ids[..|ids| - 1];
      }
    }
  }

  /** The queue holds the arrivals not popped yet, oldest first. */
  predicate InOrder(m: Store, received: nat) {
    && m.pushed == m.popped + m.queue
    && Ascending(m.pushed)
    && forall i :: 0 <= i < |m.pushed| ==> m.pushed[i] < received
  }

  /** What was popped is held or deleted. */
  predicate Balanced(m: Store, held: multiset<nat>) {
    multiset(m.popped) == held + multiset(m.deleted)
  }

  /** The live objects are the queued and the held ones, and every arrival has a history. */
  ghost predicate Alive(m: Store, held: multiset<nat>) {
    && (forall r :: r in m.heap <==> r in m.queue || r in held)
    && (forall r :: r in m.life <==> r in m.pushed)
    && !m.fault
  }

  ghost predicate Owned(m: Store, ws: seq<Pc>, received: nat) {
    InOrder(m, received) && Balanced(m, HeldIds(ws)) && Alive(m, HeldIds(ws))
  }

  ghost predicate OwnershipInv(s: State) {
    Owned(s.store, s.ctl.workers, |s.intake.received|)
  }

  /** A request a worker holds is in nobody else's hands. */
  lemma Exclusive(s: State, w: nat)
    requires OwnershipInv(s) && w < |s.ctl.workers| && Holds(s.ctl.workers[w])
    ensures var r := s.ctl.workers[w].r;
            && r in s.store.heap && r in s.store.pushed && r in s.store.popped
            && r !in s.store.queue && r !in s.store.deleted
            && HeldIds(s.ctl.workers)[r] == 1
            && forall v :: 0 <= v < |s.ctl.workers| && v != w && Holds(s.ctl.workers[v]) ==> s.ctl.workers[v].r != r
  {
    var r, ws := s.ctl.workers[w].r, s.ctl.workers;
    HeldUpdate(ws, w, ws[w]);
    AscendingOnce(s.store.pushed, r);
    assert multiset(s.store.pushed) == multiset(s.store.popped) + multiset(s.store.queue);
    assert r in multiset(s.store.popped);
    forall v | 0 <= v < |ws| && v != w && Holds(ws[v]) ensures ws[v].r != r {
      HeldTwice(ws, if v < w then v else w, if v < w then w else v);
    }
  }

  /** No worker step faults. */
  lemma NoFault(s: State, w: nat)
    requires ControlInv(s) && OwnershipInv(s) && WorkerEnabled(s.ctl, w)
    ensures !Faults(s, w)
  {
    if Holds(s.ctl.workers[w]) {
      Exclusive(s, w);
      assert s.intake.received != [];
    }
  }

  /** The owners of a request are the same before and after. */
  predicate SameOwners(m: Store, m': Store) {
    && (m'.queue, m'.pushed, m'.popped, m'.deleted) == (m.queue, m.pushed, m.popped, m.deleted)
    && m'.heap.Keys == m.heap.Keys && m'.life.Keys == m.life.Keys && m'.fault == m.fault
  }

  lemma SameOwnersKeep(m: Store, m': Store, held: multiset<nat>, received: nat)
    requires SameOwners(m, m') && InOrder(m, received) && Balanced(m, held) && Alive(m, held)
    ensures InOrder(m', received) && Balanced(m', held) && Alive(m', held)
  {
    assert forall r :: r in m'.heap <==> r in m'.heap.Keys;
    assert forall r :: r in m'.life <==> r in m'.life.Keys;
  }

  /** Handling a request changes its object and its history, not its owner. */
  lemma HandleFrame(s: State, w: nat, c: Choice)
    requires WorkerEnabled(s.ctl, w) && !Faults(s, w)
    requires !s.ctl.workers[w].Pop? && !s.ctl.workers[w].Delete?
    requires Holds(s.ctl.workers[w]) ==> s.ctl.workers[w].r in s.store.life
    ensures SameOwners(s.store, Effect(s, w, c))
  {
    assert Holds(s.ctl.workers[w]) ==> s.ctl.workers[w].r in s.store.heap;
    hide KafkaRecord, Processed, FailedRequest, Age, Faults, OwnsLock, OwnsSocket;
  }

  lemma SameHolder(s: State, w: nat, c: Choice)
    requires WorkerEnabled(s.ctl, w)
    requires !s.ctl.workers[w].Pop? && !s.ctl.workers[w].Delete?
    ensures HeldOf(NextPc(s, w, c)) == HeldOf(s.ctl.workers[w])
  {
    hide Age;
  }

  lemma HandleKeeps(s: State, w: nat, c: Choice)
    requires ControlInv(s) && OwnershipInv(s) && WorkerEnabled(s.ctl, w)
    requires !s.ctl.workers[w].Pop? && !s.ctl.workers[w].Delete?
    ensures Owned(Effect(s, w, c), s.ctl.workers[w := NextPc(s, w, c)], |s.intake.received|)
  {
    assert Holds(s.ctl.workers[w]) ==> s.ctl.workers[w].r in s.store.life by {
      if Holds(s.ctl.workers[w]) {
        Exclusive(s, w);
      }
    }
    var ws, held := s.ctl.workers, HeldIds(s.ctl.workers);
    assert InOrder(s.store, |s.intake.received|) && Balanced(s.store, held) && Alive(s.store, held);
    assert w < |ws|;
    hide *;
    NoFault(s, w);
    HandleFrame(s, w, c);
    SameHolder(s, w, c);
    HeldUpdate(ws, w, NextPc(s, w, c));
    assert HeldIds(ws[w := NextPc(s, w, c)]) == held;
    SameOwnersKeep(s.store, Effect(s, w, c), held, |s.intake.received|);
    OwnedFrom(Effect(s, w, c), ws[w := NextPc(s, w, c)], held, |s.intake.received|);
  }

  lemma OwnedFrom(m: Store, ws: seq<Pc>, held: multiset<nat>, received: nat)
    requires HeldIds(ws) == held && InOrder(m, received) && Balanced(m, held) && Alive(m, held)
    ensures Owned(m, ws, received)
  {
  }

  /** Popping moves the oldest arrival from the queue to the worker. */
  lemma PopMoves(m: Store, held: multiset<nat>, received: nat)
    requires InOrder(m, received) && Balanced(m, held) && Alive(m, held) && m.queue != []
    ensures var m' := m.(queue := m.queue[1..], popped := m.popped + [m.queue[0]]);
            var held' := held + multiset{m.queue[0]};
            InOrder(m', received) && Balanced(m', held') && Alive(m', held')
  {
    var q := m.queue;
    assert q == [q[0]] + q[1..];
    assert m.popped + [q[0]] + q[1..] == m.popped + q;
  }

  lemma PopKeeps(s: State, w: nat, c: Choice)
    requires OwnershipInv(s) && WorkerEnabled(s.ctl, w) && s.ctl.workers[w].Pop?
    ensures Owned(Effect(s, w, c), s.ctl.workers[w := NextPc(s, w, c)], |s.intake.received|)
  {
    var m, held, pc' := s.store, HeldIds(s.ctl.workers), NextPc(s, w, c);
    assert InOrder(m, |s.intake.received|) && Balanced(m, held) && Alive(m, held);
    assert w < |s.ctl.workers|;
    hide *;
    PopEffect(s, w, c);
    HeldUpdate(s.ctl.workers, w, pc');
    if m.queue != [] {
      PopMoves(m, held, |s.intake.received|);
      assert held - multiset{} + multiset{m.queue[0]} == held + multiset{m.queue[0]};
    } else {
      assert held - multiset{} + multiset{} == held;
    }
    OwnedFrom(Effect(s, w, c), s.ctl.workers[w := pc'], HeldIds(s.ctl.workers[w := pc']), |s.intake.received|);
  }

  lemma PopEffect(s: State, w: nat, c: Choice)
    requires WorkerEnabled(s.ctl, w) && s.ctl.workers[w].Pop?
    ensures var m := s.store;
            Effect(s, w, c) == if m.queue == [] then m else m.(queue := m.queue[1..], popped := m.popped + [m.queue[0]])
    ensures HeldOf(s.ctl.workers[w]) == multiset{}
    ensures HeldOf(NextPc(s, w, c)) == if s.store.queue == [] then multiset{} else multiset{s.store.queue[0]}
  {
    hide KafkaRecord, Processed, FailedRequest, Age, Record;
  }

  /** Deleting a request that one worker held and nobody else owns. */
  lemma DeleteFrees(m: Store, held: multiset<nat>, received: nat, r: nat)
    requires InOrder(m, received) && Balanced(m, held) && Alive(m, held)
    requires held[r] == 1 && r !in m.queue && r in m.life
    ensures var m' := Record(m.(heap := m.heap - {r}, deleted := m.deleted + [r]), r, Freed);
            var held' := held - multiset{r} + multiset{};
            InOrder(m', received) && Balanced(m', held') && Alive(m', held')
  {
  }

  lemma DeleteEffect(s: State, w: nat, c: Choice)
    requires WorkerEnabled(s.ctl, w) && !Faults(s, w) && s.ctl.workers[w].Delete?
    ensures var m, r := s.store, s.ctl.workers[w].r;
            && Effect(s, w, c) == Record(m.(heap := m.heap - {r}, deleted := m.deleted + [r]), r, Freed)
            && NextPc(s, w, c) == Pop
  {
    hide KafkaRecord, Processed, FailedRequest, Age, Faults, Record;
  }

  lemma DeleteKeeps(s: State, w: nat, c: Choice)
    requires ControlInv(s) && OwnershipInv(s) && WorkerEnabled(s.ctl, w) && s.ctl.workers[w].Delete?
    ensures Owned(Effect(s, w, c), s.ctl.workers[w := NextPc(s, w, c)], |s.intake.received|)
  {
    var r := s.ctl.workers[w].r;
    assert HeldIds(s.ctl.workers)[r] == 1 && r !in s.store.queue && r in s.store.life by { Exclusive(s, w); }
    hide InOrder, Balanced, Alive, HeldIds, Faults, Record, Effect, NextPc, ControlInv;
    NoFault(s, w);
    DeleteEffect(s, w, c);
    HeldUpdate(s.ctl.workers, w, Pop);
    DeleteFrees(s.store, HeldIds(s.ctl.workers), |s.intake.received|, r);
  }

  /** Pushing a new request. */
  lemma PushAdds(m: Store, held: multiset<nat>, r: nat, request: Request)
    requires InOrder(m, r) && Balanced(m, held) && Alive(m, held)
    ensures var m' := m.(heap := m.heap[r := request], queue := m.queue + [r], pushed := m.pushed + [r],
                         life := m.life[r := []]);
            InOrder(m', r + 1) && Balanced(m', held) && Alive(m', held)
  {
    assert m.popped + (m.queue + [r]) == m.pushed + [r];
  }

  lemma DispatchKeeps(s: State, view: AttrMap, now: int64, unset: Outputs)
    requires OwnershipInv(s) && s.intake.inbox != []
    ensures Owned(Dispatched(s.store, s.intake, view, now, unset), s.ctl.workers, |Taken(s.intake).received|)
  {
    hide OutcomeOf, NewRequest, HeldIds, Balanced, Alive;
    var i := s.intake;
    if OutcomeOf(i, view).Accepted? {
      PushAdds(s.store, HeldIds(s.ctl.workers), |i.received|,
               NewRequest(i.sender, i.inbox[0].num, now, OutcomeOf(i, view).params, unset));
    } else {
      UnpushedKept(s.store, Dispatched(s.store, i, view, now, unset), HeldIds(s.ctl.workers));
    }
  }

  lemma UnpushedKept(m: Store, m': Store, held: multiset<nat>)
    requires m' == m.(wire := m'.wire) && Balanced(m, held) && Alive(m, held)
    ensures Balanced(m', held) && Alive(m', held)
  {
  }

  lemma HeldKeptByMain(s: State)
    requires Enabled(s, MainStep)
    ensures HeldIds(Step(s, MainStep).ctl.workers) == HeldIds(s.ctl.workers)
  {
    hide HeldIds;
    HeldOfWoken(s.ctl.workers);
    HeldSnoc(s.ctl.workers, CheckStop);
  }

  lemma HeldKeptByWaking(c: Control, w: nat)
    ensures HeldIds(Notified(c, w).workers) == HeldIds(c.workers)
  {
    if w < |c.workers| {
      HeldUpdate(c.workers, w, Relock);
    }
  }

  lemma OwnershipKept(s: State, a: Action)
    requires ControlInv(s) && OwnershipInv(s) && Enabled(s, a)
    ensures OwnershipInv(Step(s, a))
  {
    hide Classify, Dispatched, Effect, NextPc, StepMain, Notified, Packets;
    hide HeldIds, InOrder, Balanced, Alive, ControlInv;
    match a
    case MainStep => HeldKeptByMain(s);
    case Dispatch(view, now, unset) => DispatchKeeps(s, view, now, unset);
    case NotifyOne(t) => HeldKeptByWaking(s.ctl, t);
    case Wake(w) => HeldKeptByWaking(s.ctl, w);
    case Work(w, c) =>
      if s.ctl.workers[w].Pop? { PopKeeps(s, w, c); }
      else if s.ctl.workers[w].Delete? { DeleteKeeps(s, w, c); }
      else { HandleKeeps(s, w, c); }
    case Receive(_, _) =>
    case Shutdown =>
  }

  /** Pushed requests are exactly the queued, the held and the deleted ones, each in one place, once. */
  lemma Conservation(s: State)
    requires OwnershipInv(s)
    ensures multiset(s.store.pushed)
         == multiset(s.store.queue) + HeldIds(s.ctl.workers) + multiset(s.store.deleted)
    ensures forall r :: multiset(s.store.pushed)[r] <= 1
    ensures s.store.heap.Keys == set r | r in multiset(s.store.queue) + HeldIds(s.ctl.workers)
  {
    assert multiset(s.store.pushed) == multiset(s.store.popped) + multiset(s.store.queue);
    forall r: nat ensures multiset(s.store.pushed)[r] <= 1 {
      AscendingOnce(s.store.pushed, r);
    }
  }

  /** Requests leave the queue in arrival order, and at most one per worker is popped and not yet deleted. */
  lemma InFlightWindow(s: State)
    requires ControlInv(s) && OwnershipInv(s)
    ensures |s.store.popped| <= |s.store.pushed| && s.store.popped == s.store.pushed[..|s.store.popped|]
    ensures multiset(s.store.deleted) <= multiset(s.store.pushed[..|s.store.popped|])
    ensures |s.store.popped| - |s.store.deleted| == |HeldIds(s.ctl.workers)| <= s.n
  {
    HeldCount(s.ctl.workers);
    assert |multiset(s.store.popped)| == |s.store.popped|;
    assert |multiset(s.store.deleted)| == |s.store.deleted|;
  }
}
