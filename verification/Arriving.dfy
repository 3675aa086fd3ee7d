/** Any datagram of the peer, whenever and however often it arrives, keeps the receiver's invariants. */
module Arriving {
  import opened Base
  import opened Framing
  import opened Channels
  import opened Counting
  import opened Endpoints
  import opened Sending
  import opened Acknowledging
  import opened Invariants
  import opened Receiving
  import opened Registering
  import opened Delivering
  import J = Joining

  // ---- A message in one packet ----

  /// The receiver is about to take packet `p` of its peer on a lane both know.
  ghost predicate Taking(e: Env, y: Endpoint, x: Endpoint, p: Packet, g: nat, ch: Channel) {
    && PeerOk(e, y) && Good(e, y, x) && p in y.tx.sent && p.lane.stage == StageOf(x.state)
    && LaneReady(e.mine, x, p.lane, g, ch)
    && ch.IsOrdered() == p.order.Some? && ch.IsReliable() == p.key.Some?
  }

  lemma TakingParts(e: Env, y: Endpoint, x: Endpoint, p: Packet, g: nat, ch: Channel)
    requires Taking(e, y, x, p, g, ch)
    ensures PeerOk(e, y) && Good(e, y, x) && p in y.tx.sent && p.lane.stage == StageOf(x.state)
    ensures LaneReady(e.mine, x, p.lane, g, ch) && ch.IsOrdered() == p.order.Some? && ch.IsReliable() == p.key.Some?
    ensures BareOk(e.theirs, y.local, y.tx, y.rx.noted, p) && KeysDistinct(y.tx.sent) && OrdersDistinct(y.tx.sent)
    ensures RecvInv(e.mine, y, x)
  {
    hide Good, PeerOk, BareOk, LaneReady;
    PeerParts(e, y, p);
    GoodParts(e, y, x);
  }

  /// Two packets with the same turn are one packet.
  lemma SameTurnSamePacket(sent: seq<Packet>, p: Packet, q: Packet)
    requires OrdersDistinct(sent) && p in sent && q in sent && SameTurn(p, q)
    ensures p == q
  {
    var i :| 0 <= i < |sent| && sent[i] == p;
    var j :| 0 <= j < |sent| && sent[j] == q;
    assert SameTurn(q, p);
    assert i <= j && j <= i;
  }

  /// The order of a packet that has just passed the duplicate check has not been pushed before.
  lemma OrderIsNew(y: Endpoint, x: Endpoint, lane: Lane, p: Packet)
    requires Clean(y.tx, lane) && PushedOk(y, x, lane) && OrdersDistinct(y.tx.sent)
    requires p in y.tx.sent && p.lane == lane && p.order.Some? && p.key.Some? && p.key.value !in AccKeys(x.rx)
    ensures p.order.value !in Lookup(x.rx.pushed, lane)
  {
    forall o | o in Lookup(x.rx.pushed, lane)
      ensures o != p.order.value
    {
      assert OrderAccepted(y, x, lane, o);
      var q :| q in y.tx.sent && q.lane == lane && q.order == Some(o) && q.key.Some? && q.key.value in AccKeys(x.rx);
      if SameTurn(p, q) {
        SameTurnSamePacket(y.tx.sent, p, q);
      }
    }
  }

  lemma WholeGenuine(e: Env, y: Endpoint, x: Endpoint, x': Endpoint, p: Packet, g: nat, ch: Channel)
    requires Taking(e, y, x, p, g, ch) && p.seg.None?
    requires SameReceipts(x, x')
    requires p.key.Some? ==> p.key.value in AccKeys(x'.rx) && p.key.value !in AccKeys(x.rx)
    ensures Genuine(y, x', p.lane, ch, p.order, p.payload)
  {
    hide Taking, PeerOk, Good, RecvInv, KeysDistinct, OrdersDistinct, AckPayload, AccKeys, LaneOk, LanesOk, Behind;
    TakingParts(e, y, x, p, g, ch);
    if ch.IsOrdered() {
      OrderedLane(e, x, p.lane, g, ch);
      RecvLanes(e, y, x);
      LaneOf(e, y, x, p.lane, ch);
      if Clean(y.tx, p.lane) && ch.IsReliable() {
        LanePushed(y, x, p.lane);
        OrderIsNew(y, x, p.lane, p);
        assert OrderAccepted(y, x', p.lane, p.order.value);
      }
    }
  }

  lemma LanePushed(y: Endpoint, x: Endpoint, lane: Lane)
    requires LaneOk(y, x, lane, true) && Clean(y.tx, lane)
    ensures PushedOk(y, x, lane)
  {
  }

  lemma WholeGood(e: Env, y: Endpoint, x: Endpoint, p: Packet, g: nat, ch: Channel)
    requires Taking(e, y, x, p, g, ch) && p.seg.None?
    ensures var r := ReceiveWhole(x, e.mine, p.lane, g, Header(p.order, p.key), p.payload);
            r.x.tx.wrapped || (Good(e, y, r.x) && Extends(x, r.x))
  {
    hide Taking, PeerOk, Good, RecvInv, KeysDistinct, OrdersDistinct, BareOk, Extends, Accept, Deliver, Genuine,
         AccKeys, Counted, Tallied;
    TakingParts(e, y, x, p, g, ch);
    AcceptGood(e, y, x, p);
    var a := Accept(x, p.key);
    if a.out.Fine? {
      DeliverReacts(a.x, e.mine, p.lane, g, p.order, p.payload);
      if !a.x.tx.wrapped {
        WholeGenuine(e, y, x, a.x, p, g, ch);
        ReadyStill(e, x, a.x, p.lane, g, ch);
        DeliverGood(e, y, a.x, p.lane, g, ch, p.order, p.payload);
        ExtendsTrans(x, a.x, Deliver(a.x, e.mine, p.lane, g, p.order, p.payload).x);
      }
    }
  }

  lemma ReadyStill(e: Env, x: Endpoint, x': Endpoint, lane: Lane, g: nat, ch: Channel)
    requires LaneReady(e.mine, x, lane, g, ch) && x'.state == x.state && x'.rx.notLocal == x.rx.notLocal
    ensures LaneReady(e.mine, x', lane, g, ch)
  {
  }

  // ---- A segment ----

  lemma JoinParts(y: Endpoint, m: J.Joiner, p: Packet)
    requires J.JoinerOk(m) && (forall k :: k in m ==> PartOk(y, k, m[k]))
    requires p.seg.Some? && SegmentMatches(y.tx, p)
    ensures var j := J.Join(m, p.seg.value, p.payload);
            && J.JoinerOk(j.joiner) && (forall k :: k in j.joiner ==> PartOk(y, k, j.joiner[k]))
            && (j.result.Complete? ==> j.result.parts == Chunks(y.tx.messages[p.seg.value.key].payload))
  {
    var meta, payload := p.seg.value, p.payload;
    J.JoinCounts(m, meta, payload);
    var parts := Chunks(y.tx.messages[meta.key].payload);
    hide Chunks, J.Holes;
    var entry := if meta.key in m then m[meta.key] else J.Blank(meta.count);
    assert |entry.parts| == |parts|;
    assert forall i :: 0 <= i < |parts| && entry.parts[i].Some? ==> entry.parts[i].value == parts[i];
    var j := J.Join(m, meta, payload);
    forall k | k in j.joiner
      ensures PartOk(y, k, j.joiner[k])
    {
      if k != meta.key {
        assert j.joiner[k] == m[k];
      }
    }
  }

  lemma JoinerGood(e: Env, y: Endpoint, x: Endpoint, p: Packet)
    requires Good(e, y, x) && p.seg.Some? && SegmentMatches(y.tx, p)
    ensures var j := J.Join(x.rx.joiner, p.seg.value, p.payload);
            var x' := x.(rx := x.rx.(joiner := j.joiner));
            && Good(e, y, x') && Extends(x, x')
            && (j.result.Complete? ==> j.result.parts == Chunks(y.tx.messages[p.seg.value.key].payload))
  {
    hide UpInv, AcceptOk, LanesOk, LaneOk, RoutedOk, BuffersOk, TableOk, HandshakeOk, ReleasedOk, Extends,
         SegmentMatches, PartOk, J.Join, J.JoinerOk;
    var j := J.Join(x.rx.joiner, p.seg.value, p.payload);
    var x' := x.(rx := x.rx.(joiner := j.joiner));
    JoinParts(y, x.rx.joiner, p);
    UpSame(e, x, x');
    AcceptSame(y, x, x');
    SameTable(e, y, x, x');
    JoinerLanes(e, y, x, x');
    ReleasedSame(y, x, x');
  }

  lemma JoinerLanes(e: Env, y: Endpoint, x: Endpoint, x': Endpoint)
    requires x' == x.(rx := x.rx.(joiner := x'.rx.joiner))
    ensures LanesOk(e.mine, y, x) ==> LanesOk(e.mine, y, x')
    ensures RoutedOk(e.mine, y, x) ==> RoutedOk(e.mine, y, x')
    ensures BuffersOk(x) ==> BuffersOk(x')
  {
    hide LaneOk, Clean;
    forall c: nat
      ensures Behind(e.mine, x', c) == Behind(e.mine, x, c)
    {
    }
    if LanesOk(e.mine, y, x) {
      UntouchedLane(y, x, x', MANAGEMENT_LANE, true);
      forall c: nat | Behind(e.mine, x', c).Some? && Behind(e.mine, x', c).value.IsOrdered()
        ensures LaneOk(y, x', Lane(Tra, c), Behind(e.mine, x', c).value.IsReliable())
      {
        assert Behind(e.mine, x', c) == Behind(e.mine, x, c);
        UntouchedLane(y, x, x', Lane(Tra, c), Behind(e.mine, x, c).value.IsReliable());
      }
    }
    if BuffersOk(x) {
      forall g | g in x'.rx.buffers && x'.rx.buffers[g] != []
        ensures HasLane(x', g)
      {
        assert HasLane(x, g);
      }
    }
  }

  lemma ReleasedSame(y: Endpoint, x: Endpoint, x': Endpoint)
    requires x'.tx == x.tx && x'.state == x.state
    ensures ReleasedOk(y, x) ==> ReleasedOk(y, x')
    ensures HandshakeOk(y, x) ==> HandshakeOk(y, x')
  {
  }

  lemma RejoinOrder(ordered: bool, reliable: bool, parts: seq<Bytes>)
    requires parts != [] && Rejoin(ordered, reliable, parts).Joined?
    ensures Rejoin(ordered, reliable, parts).order.Some? <==> ordered
  {
  }

  lemma JoinedGenuine(e: Env, y: Endpoint, x: Endpoint, p: Packet, ch: Channel, order: Option<nat>, full: Bytes)
    requires BareOk(e.theirs, y.local, y.tx, y.rx.noted, p) && p in y.tx.sent && p.seg.Some?
    requires var message := y.tx.messages[p.seg.value.key].payload;
             Rejoin(ch.IsOrdered(), ch.IsReliable(), Chunks(message)) == Joined(order, full)
    ensures Genuine(y, x, p.lane, ch, order, full)
  {
    hide Rejoin, Chunks;
    var payload := y.tx.messages[p.seg.value.key].payload;
    RejoinOrder(ch.IsOrdered(), ch.IsReliable(), Chunks(payload));
    RejoinOrderFits(ch.IsOrdered(), ch.IsReliable(), Chunks(payload));
    assert Restripped(ch, payload, full);
    assert !Clean(y.tx, p.lane);
  }

  lemma SegmentShare(e: Env, y: Endpoint, p: Packet)
    requires BareOk(e.theirs, y.local, y.tx, y.rx.noted, p) && p.seg.Some?
    ensures SegmentMatches(y.tx, p) && Chunks(y.tx.messages[p.seg.value.key].payload) != []
  {
  }

  lemma SegmentGood(e: Env, y: Endpoint, x: Endpoint, p: Packet, g: nat, ch: Channel)
    requires Taking(e, y, x, p, g, ch) && p.seg.Some?
    ensures var r := ReceiveSegment(x, e.mine, p.lane, g, ch, p.seg.value, Header(p.order, p.key), p.payload);
            r.x.tx.wrapped || (Good(e, y, r.x) && Extends(x, r.x))
  {
    hide Taking, PeerOk, Good, RecvInv, KeysDistinct, OrdersDistinct, BareOk, Extends, Accept, Deliver, Genuine,
         AccKeys, SegmentMatches, Rejoin, Chunks, J.Join, LaneReady, Counted, Tallied;
    TakingParts(e, y, x, p, g, ch);
    SegmentShare(e, y, p);
    AcceptGood(e, y, x, p);
    var a := Accept(x, p.key);
    if a.out.Fine? {
      var j := J.Join(a.x.rx.joiner, p.seg.value, p.payload);
      var z := a.x.(rx := a.x.rx.(joiner := j.joiner));
      if !a.x.tx.wrapped {
        JoinerGood(e, y, a.x, p);
        ExtendsTrans(x, a.x, z);
      }
      if j.result.Complete? && j.result.parts != [] {
        var joined := Rejoin(ch.IsOrdered(), ch.IsReliable(), j.result.parts);
        if joined.Joined? {
          DeliverReacts(z, e.mine, p.lane, g, joined.order, joined.payload);
          if !a.x.tx.wrapped {
            JoinedGenuine(e, y, z, p, ch, joined.order, joined.payload);
            ReadyStill(e, x, z, p.lane, g, ch);
            DeliverGood(e, y, z, p.lane, g, ch, joined.order, joined.payload);
            ExtendsTrans(x, z, Deliver(z, e.mine, p.lane, g, joined.order, joined.payload).x);
          }
        }
      }
    }
  }

  // ---- Any datagram ----

  predicate RegistrationId(chan: nat) {
    chan == ACK_ID_REGISTRATION || chan == MANAGEMENT_ID_REGISTRATION
  }

  /// The reserved ids tell the stages apart.
  lemma StageById(e: Env, y: Endpoint, x: Endpoint, p: Packet)
    requires PeerOk(e, y) && p in y.tx.sent
    ensures p.lane.stage.Reg? <==> RegistrationId(p.lane.chan)
    ensures p.lane.stage.Tra? ==> y.state.Transfer?
  {
    hide TxInv, BufferOk, AnnouncedAll;
    PeerParts(e, y, p);
  }

  lemma TableBelowReserved(e: Env, y: Endpoint, x: Endpoint)
    requires PeerOk(e, y) && Good(e, y, x)
    ensures |x.rx.notLocal.localToGlobal| < MANAGEMENT_ID_REGISTRATION
  {
    hide TxInv, BufferOk, AnnouncedAll, AcceptOk, LanesOk, QuietOk, BuffersOk, RoutedOk, JoiningOk, ReleasedOk,
         HandshakeOk;
    TableLength(e, y, x);
  }

  /// The receiver as it takes a packet: once the last registration of its peer has arrived, a packet of
  /// the transfer stage brings it into that stage first.
  function AtArrival(x: Endpoint, p: Packet): Endpoint {
    if x.state.Registration? && x.state.receivedLast && p.lane.stage.Tra? then EnterTransfer(x) else x
  }

  lemma SpeculateGood(e: Env, y: Endpoint, x: Endpoint, p: Packet)
    requires PeerOk(e, y) && Good(e, y, x) && p in y.tx.sent
    ensures Speculate(x, p.lane.chan) == AtArrival(x, p)
    ensures var z := AtArrival(x, p); Good(e, y, z) && Extends(x, z) && z.tx.wrapped == x.tx.wrapped
  {
    hide PeerOk, Good, Extends;
    StageById(e, y, x, p);
    ExtendsRefl(x);
    if Speculate(x, p.lane.chan) != x {
      EnterTransferGood(e, y, x);
    }
  }

  lemma TakingFrom(e: Env, y: Endpoint, x: Endpoint, p: Packet, g: nat, ch: Channel)
    requires PeerOk(e, y) && Good(e, y, x) && p in y.tx.sent
    requires LaneReady(e.mine, x, Lane(StageOf(x.state), p.lane.chan), g, ch)
    ensures Taking(e, y, x, p, g, ch) && p.lane == Lane(StageOf(x.state), p.lane.chan)
  {
    hide PeerOk, Good, BareOk;
    StageById(e, y, x, p);
    TableBelowReserved(e, y, x);
    PeerParts(e, y, p);
    SameKind(e, y, x, p.lane, g, ch);
    PacketKind(e, y, p);
  }

  lemma PacketKind(e: Env, y: Endpoint, p: Packet)
    requires PeerOk(e, y) && p in y.tx.sent
    ensures LaneChannel(e.theirs, y.local, p.lane).Some? && PacketFits(p)
    ensures LaneChannel(e.theirs, y.local, p.lane).value.IsOrdered() == p.order.Some?
    ensures LaneChannel(e.theirs, y.local, p.lane).value.IsReliable() == p.key.Some?
  {
    PeerParts(e, y, p);
  }

  lemma BodyGood(e: Env, y: Endpoint, x: Endpoint, p: Packet, g: nat, ch: Channel)
    requires Taking(e, y, x, p, g, ch) && FrameReads(p, Frame(p))
    ensures var r := ReceiveBody(x, e.mine, p.lane, g, ch, p.seg.Some?, DecodePrimary(Frame(p)).rest);
            r.x.tx.wrapped || (Good(e, y, r.x) && Extends(x, r.x))
  {
    hide Taking, PeerOk, Good, RecvInv, KeysDistinct, OrdersDistinct, BareOk, Extends, ReceiveSegment, ReceiveWhole,
         Frame, DecodePrimary, DecodeSegment, ReadHeader, LaneReady;
    TakingParts(e, y, x, p, g, ch);
    if p.seg.Some? {
      SegmentGood(e, y, x, p, g, ch);
    } else {
      WholeGood(e, y, x, p, g, ch);
    }
  }

  /// A datagram that the peer ever put on the wire.
  lemma ReceiveGood(e: Env, y: Endpoint, x: Endpoint, datagram: Bytes)
    requires PeerOk(e, y) && Good(e, y, x) && datagram in y.tx.wire
    ensures var r := Receive(x, e.mine, datagram);
            r.x.tx.wrapped || (Good(e, y, r.x) && Extends(x, r.x))
  {
    hide PeerOk, Good, Extends, ReceiveBody, Frame, FrameReads, Speculate, Taking, DecodeSegment, ReadHeader,
         DecodePrimary, Parse, LaneChannel, PacketFits;
    var p := OnTheWire(e, y, datagram);
    PacketKind(e, y, p);
    FrameRoundTrip(p);
    PrimaryRead(p);
    SpeculateGood(e, y, x, p);
    var z := Speculate(x, p.lane.chan);
    var stage := StageOf(z.state);
    var global := z.rx.notLocal.GlobalId(stage, p.lane.chan);
    if global.Some? {
      var ch := ChannelOf(stage, p.lane.chan, global.value, e.mine);
      if ch.Some? {
        TakingFrom(e, y, z, p, global.value, ch.value);
        BodyGood(e, y, z, p, global.value, ch.value);
        var r := ReceiveBody(z, e.mine, p.lane, global.value, ch.value, p.seg.Some?, DecodePrimary(datagram).rest);
        if !r.x.tx.wrapped {
          ExtendsTrans(x, z, r.x);
        }
      }
    }
  }

  lemma PrimaryRead(p: Packet)
    requires FrameReads(p, Frame(p))
    ensures DecodePrimary(Frame(p)).Got? && DecodePrimary(Frame(p)).value == Primary(p.lane.chan, p.seg.Some?)
  {
    hide Frame, DecodePrimary;
  }

  lemma OnTheWire(e: Env, y: Endpoint, datagram: Bytes) returns (p: Packet)
    requires PeerOk(e, y) && datagram in y.tx.wire
    ensures p in y.tx.sent && Frame(p) == datagram
  {
    hide PacketOk, SlotsOk, BufferOk, AnnouncedOk, AnnouncedAll, Frame;
    assert OnWire(y.tx.sent, datagram);
    p :| p in y.tx.sent && Frame(p) == datagram;
  }
}
