/**
 A run from the start in which a side comes to transfer by speculation: its peer never acknowledges
 anything, and the first payload that the peer sends there is delivered all the same.
 */
module Speculating {
  import opened Base
  import opened SlotKeys
  import opened Framing
  import opened Endpoints
  import opened Sending
  import opened Acknowledging
  import opened Counting
  import opened Invariants
  import opened Receiving
  import opened Systems
  import opened Guarantees
  import opened Progress
  import opened Settling
  import opened Possibility
  import opened Arrivals
  import opened FirstRuns

  /// The acknowledgements gathered for all announcements of the peer leave room for one more.
  lemma HeardRoom(c: Config, run: seq<Sys>, events: seq<Event>, s: Sys, side: Side)
    requires c.Ok() && Reaches(c, run, events, s) && HeardSide(c, s, side) && HeardSide(c, s, side.Other())
    ensures |s.At(side).x.ack| + 10 <= MAX_NON_SEGMENTED_PAYLOAD
  {
    hide Reaches, HeardSide, Config.Ok, EncodeKeys, FrontKeys;
    HeardKeys(c, run, events, s, side.Other());
    KeysLength(Owed(s, side.Other()));
    HeardFew(c, s, side.Other());
    assert |Owed(s, side.Other())| == |s.At(side.Other()).x.tx.listing| + 1 by {
      OwedLength(s, side.Other());
    }
  }

  lemma OwedLength(s: Sys, side: Side)
    requires var sent := s.At(side).x.tx.sent; forall i :: 0 <= i < |sent| ==> sent[i].key.Some?
    ensures |Owed(s, side)| == |s.At(side).x.tx.sent|
  {
  }

  lemma HeardFew(c: Config, s: Sys, side: Side)
    requires HeardSide(c, s, side)
    ensures 10 * (|s.At(side).x.tx.listing| + 3) <= MAX_NON_SEGMENTED_PAYLOAD
  {
    hide Heard, AnnouncedTo;
  }

  lemma CalmHeard(c: Config, run: seq<Sys>, events: seq<Event>, s: Sys, side: Side)
    requires c.Ok() && Reaches(c, run, events, s) && HeardSide(c, s, side)
    ensures Calm(s.At(side).x)
  {
    hide Reaches, PeerOk, Good, AcceptOk, CountsOk, Config.Ok, SelfInv, HeardSide, Easy, Timeless, Calm;
    Sides(c, run, events, s, side);
    HeardEasy(c, s, side);
    CalmOpen(c, s, side);
  }

  lemma CalmOpen(c: Config, s: Sys, side: Side)
    requires HeardSide(c, s, side) && SelfInv(c.At(side), s.At(side).x) && s.At(side).x.state.Registration?
    ensures Calm(s.At(side).x)
  {
    hide Heard, Timeless, Counted, Announces, TxInv, BufferOk, AnnouncedOk, AnnouncedAll;
  }

  /// The other side has come to transfer by the acknowledgements of `side`, and has sent none itself.
  ghost predicate OneAhead(c: Config, s0: Sys, s: Sys, side: Side) {
    && HeardSide(c, s0, side) && HeardSide(c, s0, side.Other())
    && s.At(side).phase.Up? && Flushed(s0.At(side).x, s.At(side).x)
    && Ready(c, s, side.Other()) && s.At(side.Other()).x.tx.sent == s0.At(side.Other()).x.tx.sent
  }

  lemma GoAhead(c: Config, side: Side) returns (s0: Sys, run: seq<Sys>, events: seq<Event>, s: Sys)
    requires Roomy(c)
    ensures Reaches(c, run, events, s) && OneAhead(c, s0, s, side)
  {
    hide Roomy, Reaches, HeardSide, Flushed, Config.Ok, Easy, Timeless, Waiting, Calm, Ready, FrontKeys, Heard,
         EncodeKeys;
    RoomyOk(c);
    var r0, e0;
    r0, e0, s0 := HearBoth(c);
    HeardEither(c, s0, side);
    HeardEasy(c, s0, side);
    var r1, e1, s1 := FlushSide(c, r0, e0, s0, side, 0);
    var o := side.Other();
    HeardKeys(c, r0, e0, s0, side);
    HeardKeys(c, r0, e0, s0, o);
    HeardFinal(c, s0, o);
    HeardRoom(c, r0, e0, s0, o);
    var x := s0.At(o).x;
    WaitingFrom(c.EnvOf(o), s0.At(side).x, s1.At(side).x, x, x);
    CalmHeard(c, r0, e0, s0, o);
    HeardEasy(c, s0, o);
    run, events, s := EnterSide(c, r1, e1, s1, o, FrontKeys(x.tx.sent, |x.tx.sent|));
  }

  lemma HeardEither(c: Config, s: Sys, side: Side)
    requires HeardSide(c, s, Left) && HeardSide(c, s, Right)
    ensures HeardSide(c, s, side) && HeardSide(c, s, side.Other())
  {
    hide HeardSide;
  }

  /// The peer has never sent an acknowledgement.
  ghost predicate NoneAcknowledged(y: Endpoint) {
    forall q :: q in y.tx.sent ==> !IsAckLane(y.local, q.lane)
  }

  lemma SilentPeer(c: Config, s0: Sys, s: Sys, y: Endpoint, side: Side, p: Packet)
    requires OneAhead(c, s0, s, side) && y.tx.sent == s.At(side.Other()).x.tx.sent + [p] && !IsAckLane(y.local, p.lane)
    ensures NoneAcknowledged(y)
  {
    hide Heard, Flushed, Ready, Counted, Timeless, Frame;
    var x := s0.At(side.Other()).x;
    forall q | q in y.tx.sent
      ensures !IsAckLane(y.local, q.lane)
    {
      if q != p {
        var i :| 0 <= i < |x.tx.sent| && x.tx.sent[i] == q;
        assert Announces(x.tx, i);
      }
    }
  }

  /// The side as it takes the first packet of the transfer stage.
  lemma AheadEnters(c: Config, s0: Sys, s: Sys, run: seq<Sys>, events: seq<Event>, t: Sys, side: Side)
    requires Roomy(c) && Reaches(c, run, events, t) && OneAhead(c, s0, s, side) && t.At(side) == s.At(side)
    requires t.At(side.Other()).x.state.Transfer?
    ensures var e, y, x := c.EnvOf(side), t.At(side.Other()).x, t.At(side).x;
            && x.state.Registration? && x.state.receivedLast && x.state.lastKey == x.tx.finalKey
            && JustArrived(e, EnterTransfer(x)) && PeerOk(e, y) && Good(e, y, x) && Good(e, y, EnterTransfer(x))
            && EnterTransfer(x).tx.wrapped == x.tx.wrapped == false
  {
    hide Roomy, Reaches, HeardSide, Flushed, Config.Ok, Ready, Heard, PeerOk, Good, AcceptOk, CountsOk, SelfInv,
         Extends, OrderersReady;
    RoomyOk(c);
    var e, y, x := c.EnvOf(side), t.At(side.Other()).x, t.At(side).x;
    Sides(c, run, events, t, side);
    HeardStill(c, s0, side, x);
    QuietBefore(e, y, x);
    EnterTransferGood(e, y, x);
    ReadySame(e, s0.At(side).x, EnterTransfer(x));
  }

  lemma HeardStill(c: Config, s0: Sys, side: Side, x: Endpoint)
    requires HeardSide(c, s0, side) && Flushed(s0.At(side).x, x)
    ensures x.state == Registration(true, x.tx.finalKey) && OrderersReady(c.EnvOf(side), s0.At(side).x)
    ensures x.rx == s0.At(side).x.rx && x.rx.joiner == map[] && x.ack == []
  {
    hide OrderersReady, FrontKeys, EncodeKeys, Announces, Counted, Timeless, Frame;
  }

  lemma AheadReady(c: Config, s0: Sys, s: Sys, side: Side)
    requires OneAhead(c, s0, s, side)
    ensures Ready(c, s, side.Other()) && s.At(side).phase.Up?
  {
    hide HeardSide, Flushed, Ready;
  }

  /// The peer's first payload, on its way to a side that is still in registration.
  lemma AheadSends(c: Config, side: Side, name: Bytes, payload: Bytes)
      returns (s0: Sys, s1: Sys, run: seq<Sys>, events: seq<Event>, s: Sys, p: Packet)
    requires Roomy(c) && name in c.At(side).names && AppName(name) && |payload| <= MAX_NON_SEGMENTED_PAYLOAD
    ensures Reaches(c, run, events, s) && OneAhead(c, s0, s1, side) && s.At(side) == s1.At(side)
    ensures s.At(side.Other()).phase.Up? && s.At(side.Other()).x.state.Transfer?
    ensures c.At(side).names[name] < |c.At(side).channels|
    ensures Underway(c.EnvOf(side), s.At(side.Other()).x, EnterTransfer(s.At(side).x), name, payload, p)
    ensures s.At(side.Other()).x.tx.sent == s1.At(side.Other()).x.tx.sent + [p]
  {
    hide Roomy, Reaches, Ready, AppName, FirstPacket, Calm, OneAhead, PeerOk, Good, JustArrived, Underway, Config.Ok,
         EnterTransfer, AcceptOk, SelfInv, CountsOk, UpInv;
    ChannelHere(c, side, name);
    NameThere(c, side, name);
    RoomyOk(c);
    var r0, e0, o;
    o := side.Other();
    s0, r0, e0, s1 := GoAhead(c, side);
    AheadReady(c, s0, s1, side);
    run, events, s := SendSide(c, r0, e0, s1, o, name, payload);
    PacketState(c.At(o), s1.At(o).x, s.At(o).x, name, payload);
    AheadEnters(c, s0, s1, run, events, s, side);
    Sides(c, run, events, s, o);
    GoodUp(c.EnvOf(o), s.At(side).x, s.At(o).x);
    EntersTransfer(s.At(side).x);
    p := UnderwayFrom(c.EnvOf(side), s1.At(o).x, s.At(o).x, EnterTransfer(s.At(side).x), name, payload);
  }

  lemma UnderwaySent(e: Env, y: Endpoint, x: Endpoint, name: Bytes, payload: Bytes, p: Packet)
    requires name in e.mine.names && e.mine.names[name] < |e.mine.channels| && Underway(e, y, x, name, payload, p)
    ensures p in y.tx.sent && p.lane.stage.Tra? && !IsAckLane(y.local, p.lane)
  {
    hide IsAckLane, LaneReady, Frame;
  }

  /// The peer's first payload makes `side` speculate, and is delivered.
  lemma AheadDelivers(c: Config, s0: Sys, s1: Sys, run: seq<Sys>, events: seq<Event>, s: Sys, side: Side, name: Bytes,
        payload: Bytes, p: Packet)
    requires Roomy(c) && Reaches(c, run, events, s) && OneAhead(c, s0, s1, side) && s.At(side) == s1.At(side)
    requires s.At(side.Other()).phase.Up? && s.At(side.Other()).x.state.Transfer?
    requires name in c.At(side).names && c.At(side).names[name] < |c.At(side).channels|
    requires Underway(c.EnvOf(side), s.At(side.Other()).x, EnterTransfer(s.At(side).x), name, payload, p)
    ensures var e, x, z := c.EnvOf(side), s.At(side).x, EnterTransfer(s.At(side).x);
            var r := Receive(x, e.mine, Frame(p));
            && r.out.Fine? && !r.x.tx.wrapped && Took(z, r.x, c.At(side).names[name], p)
            && JustArrived(e, z) && Good(e, s.At(side.Other()).x, z)
  {
    hide Roomy, Reaches, OneAhead, PeerOk, Good, JustArrived, Underway, EnterTransfer, Receive, Took, Payload,
         LaneReady, Frame;
    RoomAt(c, side, name);
    var e, y, x, g := c.EnvOf(side), s.At(side.Other()).x, s.At(side).x, c.At(side).names[name];
    var z := EnterTransfer(x);
    AheadEnters(c, s0, s1, run, events, s, side);
    UnderwayParts(e, y, z, name, payload, p);
    UnderwaySent(e, y, z, name, payload, p);
    ArrivesAs(e, y, x, p);
    FirstTaken(e, y, z, p, g, c.At(side).channels[g]);
    TookParts(z, Receive(x, e.mine, Frame(p)).x, g, p);
  }

  /// Speculation works: some run opens both sides and brings `side` to transfer without a single
  /// acknowledgement from its peer, so that its own last packet was never acknowledged, and the payload
  /// that brought it there is delivered.
  lemma SpeculationHappens(c: Config, side: Side, name: Bytes, payload: Bytes)
      returns (run: seq<Sys>, events: seq<Event>)
    requires Roomy(c) && name in c.At(side).names && AppName(name) && |payload| <= MAX_NON_SEGMENTED_PAYLOAD
    ensures IsRun(c, run, events) && Unwrapped(run[|events|]) && Exchanged(c, run[|events|], side, name, payload)
    ensures NoneAcknowledged(run[|events|].At(side.Other()).x)
  {
    hide Roomy, Reaches, AppName, OneAhead, Underway, Receive, Exchanged, JustArrived, Took, Frame, LaneReady, Payload,
         PeerOk, Good, EnterTransfer, Config.Ok, NoneAcknowledged, IsAckLane, Inbox, Unwrapped, IsRun;
    RoomyOk(c);
    var s0, s1, r0, e0, s, p := AheadSends(c, side, name, payload);
    var e, y, x, z := c.EnvOf(side), s.At(side.Other()).x, s.At(side).x, EnterTransfer(s.At(side).x);
    AheadReady(c, s0, s1, side);
    AheadDelivers(c, s0, s1, r0, e0, s, side, name, payload, p);
    UnderwayParts(e, y, z, name, payload, p);
    UnderwaySent(e, y, z, name, payload, p);
    FirstBuffer(e, y, z, name);
    EntersTransfer(x);
    var s';
    run, events, s' := TakeOne(c, r0, e0, s, side, Frame(p));
    TookFirst(c, s.With(side, Node(Up, z)), s', side, name, payload, p);
    SilentPeer(c, s0, s1, y, side, p);
    ReachesParts(c, run, events, s');
  }

  lemma ReachesParts(c: Config, run: seq<Sys>, events: seq<Event>, s: Sys)
    requires Reaches(c, run, events, s)
    ensures IsRun(c, run, events) && |run| == |events| + 1 && run[|events|] == s && Unwrapped(s)
  {
    RunLength(c, run, events);
  }
}
