/** Cutting a datagram into packets (Server::ProcessIncomingData). */
module Framing {
  import opened Bytes
  import opened PsPacket

  /** The packets the receive loop dispatches: it stops at the first bytes that do not parse. */
  function Packets(bs: seq<byte>): seq<Parsed>
    decreases |bs|
  {
    match Parse(bs)
    case None => []
    case Some(p) => [p] + Packets(bs[p.len..])
  }

  function Concat(pieces: seq<seq<byte>>): seq<byte> {
    if pieces == [] then [] else pieces[0] + Concat(pieces[1..])
  }

  /** A piece that is one packet from its first byte to its last. */
  predicate IsPacket(piece: seq<byte>) {
    Parse(piece).Some? && Parse(piece).value.len == |piece|
  }

  /** One packet in front of anything is dispatched first, and the rest is cut as if it came alone. */
  lemma PacketsFront(piece: seq<byte>, rest: seq<byte>)
    requires IsPacket(piece)
    ensures Packets(piece + rest) == [Parse(piece).value] + Packets(rest)
  {
    var bs := piece + rest;
    ParseLocal(piece, rest);
    assert piece[..|piece|] == piece;
    assert bs[|piece|..] == rest;
  }

  /**
   However a datagram is divided into whole packets and a tail that does not parse, exactly those packets
   are dispatched, once each and in order.
   */
  lemma {:induction false} PacketsOfDivision(pieces: seq<seq<byte>>, tail: seq<byte>)
    requires forall i :: 0 <= i < |pieces| ==> IsPacket(pieces[i])
    requires Parse(tail).None?
    ensures |Packets(Concat(pieces) + tail)| == |pieces|
    ensures forall i :: 0 <= i < |pieces| ==> Some(Packets(Concat(pieces) + tail)[i]) == Parse(pieces[i])
  {
    hide Parse;
    if pieces == [] {
      assert [] + tail == tail;
    } else {
      var rest := Concat(pieces[1..]) + tail;
      assert Concat(pieces) + tail == pieces[0] + rest;
      PacketsFront(pieces[0], rest);
      PacketsOfDivision(pieces[1..], tail);
    }
  }

  /** Every datagram has such a division. */
  lemma {:induction false} Division(bs: seq<byte>) returns (pieces: seq<seq<byte>>, tail: seq<byte>)
    ensures bs == Concat(pieces) + tail && Parse(tail).None?
    ensures forall i :: 0 <= i < |pieces| ==> IsPacket(pieces[i])
    decreases |bs|
  {
    match Parse(bs)
    case None =>
      pieces, tail := [], bs;
      assert bs == Concat([]) + bs;
    case Some(p) =>
      var more;
      more, tail := Division(bs[p.len..]);
      ParseLocal(bs, []);
      assert bs[..p.len] + [] == bs[..p.len];
      pieces := [bs[..p.len]] + more;
      assert pieces[1..] == more;
      assert bs == bs[..p.len] + bs[p.len..];
      assert Concat(pieces) + tail == bs[..p.len] + (Concat(more) + tail);
  }

  /** The packets of `k` composed packets, whatever unparseable bytes follow them. */
  lemma {:induction false} PacketsOfComposed(sent: seq<(uint32, uint16, seq<Attr>)>, tail: seq<byte>)
    requires forall i :: 0 <= i < |sent| ==> Fits(sent[i].2)
    requires Parse(tail).None?
    ensures var pieces := seq(|sent|, i requires 0 <= i < |sent| => Build(sent[i].0, sent[i].1, sent[i].2));
            var ps := Packets(Concat(pieces) + tail);
            && |ps| == |sent|
            && forall i :: 0 <= i < |sent| ==> (ps[i].num, ps[i].kind, ps[i].attrs) == sent[i]
  {
    var pieces := seq(|sent|, i requires 0 <= i < |sent| => Build(sent[i].0, sent[i].1, sent[i].2));
    forall i | 0 <= i < |pieces|
      ensures IsPacket(pieces[i])
      ensures var p := Parse(pieces[i]).value; (p.num, p.kind, p.attrs) == sent[i]
    {
      ParseBuild(sent[i].0, sent[i].1, sent[i].2, []);
      assert pieces[i] + [] == pieces[i];
    }
    PacketsOfDivision(pieces, tail);
  }
}
