/** Which packets the pool of a run has to do with: those of the datagrams received, in order, all of them. */
module PoolArrivals {
  import opened Bytes
  import opened PsPacket
  import opened ClientRequests
  import opened Framing
  import opened PoolModel
  import opened PoolSafety

  function PacketsFrom(from: Addr, ps: seq<Parsed>): (r: seq<Packet>)
    ensures |r| == |ps|
  {
    seq(|ps|, i requires 0 <= i < |ps| => Packet(from, ps[i].num, ps[i].kind, ps[i].attrs))
  }

  /** The packets of all datagrams received, one after another. */
  function Arrivals(run: seq<Action>): seq<Packet> {
    if run == [] then []
    else
      var last := run[|run| - 1];
      Arrivals(run[..|run| - 1]) + if last.Receive? then PacketsFrom(last.from, Packets(last.datagram)) else []
  }

  /** The packets dispatched, and those of the datagram still ahead. */
  function Known(i: Intake): seq<Packet> {
    i.received + PacketsFrom(i.sender, i.inbox)
  }

  lemma KnownStep(s: State, a: Action)
    requires Enabled(s, a)
    ensures Known(Step(s, a).intake)
         == Known(s.intake) + if a.Receive? then PacketsFrom(a.from, Packets(a.datagram)) else []
  {
    hide Packets, IsView, Dispatched, StepWorker, Effect, StepMain, WorkerEnabled, MainEnabled;
  }

  lemma {:induction false} KnownAlong(s: State, run: seq<Action>)
    requires Valid(s, run)
    ensures Known(Exec(s, run).intake) == Known(s.intake) + Arrivals(run)
    decreases |run|
  {
    hide Step, Enabled, Known;
    if run != [] {
      KnownAlong(s, run[..|run| - 1]);
      KnownStep(Exec(s, run[..|run| - 1]), run[|run| - 1]);
    }
  }

  /** Every packet of every datagram received is dispatched in its turn, or still ahead: none is skipped or invented. */
  lemma EveryArrivalDispatched(n: nat, kafka: bool, run: seq<Action>, s: State)
    requires Run(n, kafka, run, s)
    ensures s.intake.received + PacketsFrom(s.intake.sender, s.intake.inbox) == Arrivals(run)
    ensures s.intake.inbox == [] ==> s.intake.received == Arrivals(run)
  {
    KnownAlong(Initial(n, kafka), run);
  }

  /** Where in the arrivals the packets of one datagram are. */
  lemma {:induction false} ArrivalsAt(run: seq<Action>, k: nat, j: nat)
    requires k < |run| && run[k].Receive? && j < |Packets(run[k].datagram)|
    ensures |Arrivals(run[..k])| + j < |Arrivals(run)|
    ensures Arrivals(run)[|Arrivals(run[..k])| + j] == PacketsFrom(run[k].from, Packets(run[k].datagram))[j]
  {
    hide Packets;
    if k < |run| - 1 {
      ArrivalsAt(run[..|run| - 1], k, j);
      assert run[..|run| - 1][..k] == run[..k];
    }
  }

  /** The packet a composed datagram begins with arrives with its sender, number, type and attributes. */
  lemma ComposedArrives(n: nat, kafka: bool, run: seq<Action>, s: State, k: nat, r: nat,
                        num: uint32, kind: uint16, attrs: seq<Attr>, rest: seq<byte>)
    requires Run(n, kafka, run, s) && Fits(attrs)
    requires k < |run| && run[k].Receive? && run[k].datagram == Build(num, kind, attrs) + rest
    requires r == |Arrivals(run[..k])| < |s.intake.received|
    ensures s.intake.received[r] == Packet(run[k].from, num, kind, attrs)
  {
    var piece := Build(num, kind, attrs);
    ParseBuild(num, kind, attrs, []);
    assert piece + [] == piece;
    PacketsFront(piece, rest);
    hide Run, Packets, Parse, Build;
    ArrivalsAt(run, k, 0);
    EveryArrivalDispatched(n, kafka, run, s);
  }
}
