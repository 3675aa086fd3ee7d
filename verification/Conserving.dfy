/** No acknowledgement is lost or made up: what is noted is sent, in order, or waits in the buffer. */
module Conserving {
  import opened Base
  import opened SlotKeys
  import opened Framing
  import opened Channels
  import opened Endpoints
  import opened Sending
  import opened Acknowledging
  import opened Counting
  import opened Invariants
  import opened Receiving
  import opened Delivering
  import opened Arriving
  import opened Opening
  import opened Systems
  import opened Guarantees
  import opened Protocol
  import opened Panics
  import opened Settling

  /// The keys noted in a stage, in order.
  function ListedIn(listed: seq<Accepted>, stage: Stage): seq<Key> {
    if listed == [] then []
    else
      var a := listed[|listed| - 1];
      ListedIn(listed[..|listed| - 1], stage) + if a.stage == stage then [a.key] else []
  }

  lemma ListedSnoc(listed: seq<Accepted>, a: Accepted, stage: Stage)
    ensures ListedIn(listed + [a], stage) == ListedIn(listed, stage) + if a.stage == stage then [a.key] else []
  {
    assert (listed + [a])[..|listed|] == listed;
  }

  function KeysListed(listed: seq<Accepted>): set<Key> {
    set a | a in listed :: a.key
  }

  lemma OneMoreListed(listed: seq<Accepted>, a: Accepted)
    ensures KeysListed(listed + [a]) == KeysListed(listed) + {a.key}
  {
    assert forall b :: b in listed + [a] <==> b in listed || b == a;
  }

  /// The lane on which an endpoint acknowledges in a stage.
  function AckLaneIn(x: Endpoint, stage: Stage): Lane {
    AckLaneOf(stage, x.local.ack)
  }

  /// In the current stage the keys noted are those sent and then those in the buffer, and of those
  /// noted in registration the ones sent are the first.
  ghost predicate AcksOk(x: Endpoint) {
    && KeyList(x.ack) && |x.ack| <= MAX_NON_SEGMENTED_PAYLOAD && KeysListed(x.rx.listed) == x.rx.noted
    && var stage := StageOf(x.state);
    && ListedIn(x.rx.listed, stage) == KeysOn(x.tx.sent, AckLaneIn(x, stage)) + DecodeKeys(x.ack)
    && (if stage.Reg? then ListedIn(x.rx.listed, Tra) == []
        else IsPrefix(KeysOn(x.tx.sent, ACK_LANE), ListedIn(x.rx.listed, Reg)))
  }

  // ---- Noting a key ----

  /// A flush moves the buffer into a packet or leaves everything.
  lemma FlushMoves(tx: Tx, ack: Bytes, stage: Stage, ackId: nat, lane: Lane)
    requires |ack| <= MAX_NON_SEGMENTED_PAYLOAD && KeyList(ack)
    ensures var r := Flush(tx, ack, stage, ackId);
            && (r.ack == [] || r.ack == ack) && (r.out.Fine? ==> r.ack == []) && KeyList(r.ack)
            && (if lane == AckLaneOf(stage, ackId)
                then KeysOn(r.tx.sent, lane) + DecodeKeys(r.ack) == KeysOn(tx.sent, lane) + DecodeKeys(ack)
                else KeysOn(r.tx.sent, lane) == KeysOn(tx.sent, lane))
  {
    hide Flush, Frame, KeysOn, DecodeKeys, KeyList;
    FlushSends(tx, ack, stage, ackId);
    EmptyList();
    var r := Flush(tx, ack, stage, ackId);
    if r.out.Fine? {
      var p :| r.tx.sent == tx.sent + [p] && r.tx.wire == tx.wire + [Frame(p)]
               && p.payload == ack && p.lane == AckLaneOf(stage, ackId) && p.seg.None?;
      KeysOnSnoc(tx.sent, p, lane);
    }
  }

  lemma AcknowledgeMoves(tx: Tx, ack: Bytes, k: Key, stage: Stage, ackId: nat, lane: Lane)
    requires |ack| <= MAX_NON_SEGMENTED_PAYLOAD && KeyList(ack) && Fits(k)
    ensures var r := Acknowledge(tx, ack, k, stage, ackId);
            && KeyList(r.ack) && |r.ack| <= MAX_NON_SEGMENTED_PAYLOAD
            && (if lane == AckLaneOf(stage, ackId)
                then KeysOn(r.tx.sent, lane) + DecodeKeys(r.ack)
                     == KeysOn(tx.sent, lane) + DecodeKeys(ack) + if r.out.Fine? then [k] else []
                else KeysOn(r.tx.sent, lane) == KeysOn(tx.sent, lane))
  {
    hide Flush, KeysOn, DecodeKeys, KeyList, EncodeKey;
    FlushMoves(tx, ack, stage, ackId, lane);
    DecodeSnoc(ack, k);
    EmptyList();
    DecodeSnoc([], k);
    KeyLength(k);
    assert [] + EncodeKey(k) == EncodeKey(k) && [] + [k] == [k];
    var front := KeysOn(tx.sent, lane);
    assert front + (DecodeKeys(ack) + [k]) == front + DecodeKeys(ack) + [k];
    assert front + DecodeKeys(ack) + [] == front + DecodeKeys(ack);
    var r := Flush(tx, ack, stage, ackId);
    assert KeysOn(r.tx.sent, lane) + [] == KeysOn(r.tx.sent, lane);
  }

  lemma AcceptAcks(e: Env, x: Endpoint, k: Key)
    requires UpInv(e.mine, x) && AcksOk(x) && Fits(k)
    ensures AcksOk(Accept(x, Some(k)).x)
  {
    hide UpInv, Acknowledge, KeysOn, DecodeKeys, KeyList, ListedIn, KeysListed;
    OneMoreListed(x.rx.listed, Accepted(StageOf(x.state), k));
    var stage := StageOf(x.state);
    UpParts(e, x);
    AcknowledgeMoves(x.tx, x.ack, k, stage, x.local.ack, AckLaneIn(x, stage));
    AcknowledgeMoves(x.tx, x.ack, k, stage, x.local.ack, ACK_LANE);
    ListedSnoc(x.rx.listed, Accepted(stage, k), Reg);
    ListedSnoc(x.rx.listed, Accepted(stage, k), Tra);
  }

  // ---- Everything else ----

  lemma QuietAcks(x: Endpoint, x': Endpoint)
    requires AcksOk(x) && Quietly(x, x') && (x.state.Registration? ==> KeysOn(x.tx.sent, AckLaneIn(x, Tra)) == [])
    ensures AcksOk(x')
  {
    hide KeysOn, DecodeKeys, KeyList, ListedIn, KeysListed;
    EmptyList();
    var ks := KeysOn(x.tx.sent, ACK_LANE);
    assert (ks + DecodeKeys(x.ack))[..|ks|] == ks;
  }

  lemma {:induction false} NoKeysOn(sent: seq<Packet>, lane: Lane)
    requires forall p :: p in sent ==> p.lane != lane
    ensures KeysOn(sent, lane) == []
  {
    if sent != [] {
      NoKeysOn(sent[..|sent| - 1], lane);
    }
  }

  lemma NoneInRegistration(prov: Provider, x: Endpoint)
    requires SelfInv(prov, x) && x.state.Registration?
    ensures KeysOn(x.tx.sent, AckLaneIn(x, Tra)) == []
  {
    hide TxInv, BufferOk, AnnouncedOk, AnnouncedAll;
    NoKeysOn(x.tx.sent, AckLaneIn(x, Tra));
  }

  lemma SpeculateQuiet(x: Endpoint, chan: nat)
    ensures Quietly(x, Speculate(x, chan))
  {
  }

  lemma GoodSelf(e: Env, y: Endpoint, x: Endpoint)
    requires Good(e, y, x)
    ensures SelfInv(e.mine, x) && UpInv(e.mine, x)
  {
    hide SelfInv, RecvInv;
  }

  lemma QuietGood(e: Env, y: Endpoint, x: Endpoint, x': Endpoint)
    requires Good(e, y, x) && AcksOk(x) && Quietly(x, x')
    ensures AcksOk(x')
  {
    hide Good, AcksOk, Quietly, KeysOn;
    GoodSelf(e, y, x);
    if x.state.Registration? {
      NoneInRegistration(e.mine, x);
    }
    QuietAcks(x, x');
  }

  lemma AcceptKeepsAcks(e: Env, y: Endpoint, x: Endpoint, p: Packet)
    requires PeerOk(e, y) && Good(e, y, x) && AcksOk(x) && p in y.tx.sent
    ensures AcksOk(Accept(x, p.key).x)
  {
    hide Good, PeerOk, AcksOk, BareOk, PacketOk, KeysDistinct, OrdersDistinct, UpInv, SelfInv;
    PeerParts(e, y, p);
    GoodSelf(e, y, x);
    if p.key.Some? {
      AcceptAcks(e, x, p.key.value);
    }
  }

  lemma ReceiveAcks(e: Env, y: Endpoint, x: Endpoint, p: Packet)
    requires PeerOk(e, y) && Good(e, y, x) && AcksOk(x) && p in y.tx.sent
    requires !Receive(x, e.mine, Frame(p)).x.tx.wrapped
    ensures AcksOk(Receive(x, e.mine, Frame(p)).x)
  {
    hide PeerOk, Good, AcksOk, ReceiveBody, Frame, FrameReads, Speculate, Taking, Parse, LaneChannel, PacketFits,
         Elsewhere, Accept, DecodePrimary, Extends, Quietly;
    PacketKind(e, y, p);
    FrameRoundTrip(p);
    PrimaryRead(p);
    SpeculateGood(e, y, x, p);
    SpeculateQuiet(x, p.lane.chan);
    QuietGood(e, y, x, Speculate(x, p.lane.chan));
    var z := Speculate(x, p.lane.chan);
    var stage := StageOf(z.state);
    var g := z.rx.notLocal.GlobalId(stage, p.lane.chan);
    if g.Some? && ChannelOf(stage, p.lane.chan, g.value, e.mine).Some? {
      var ch := ChannelOf(stage, p.lane.chan, g.value, e.mine).value;
      TakingFrom(e, y, z, p, g.value, ch);
      TakingParts(e, y, z, p, g.value, ch);
      BodyElsewhere(z, e.mine, p, g.value, ch);
      AcceptKeepsAcks(e, y, z, p);
      AcceptGood(e, y, z, p);
      if Accept(z, p.key).x.tx.wrapped {
        BodyWraps(z, e.mine, p, g.value, ch);
      } else {
        QuietGood(e, y, Accept(z, p.key).x, Receive(x, e.mine, Frame(p)).x);
      }
    }
  }

  lemma TickAcks(x: Endpoint, delta: nat)
    requires AcksOk(x)
    ensures AcksOk(Tick(x, delta).x)
  {
    hide Flush, KeysOn, DecodeKeys, KeyList, ListedIn, KeysListed;
    var stage := StageOf(x.state);
    assert Resend(x.tx, delta).sent == x.tx.sent;
    FlushMoves(Resend(x.tx, delta), x.ack, stage, x.local.ack, AckLaneIn(x, stage));
    FlushMoves(Resend(x.tx, delta), x.ack, stage, x.local.ack, ACK_LANE);
  }

  /// Everything sent after `sent` was sent on the lane.
  ghost predicate TailOn(sent: seq<Packet>, sent': seq<Packet>, lane: Lane) {
    IsPrefix(sent, sent') && forall i :: |sent| <= i < |sent'| ==> sent'[i].lane == lane
  }

  lemma {:induction false} SegmentsTail(tx: Tx, ch: Channel, lane: Lane, order: Option<nat>, key: nat,
        parts: seq<Bytes>, i: nat)
    requires i <= |parts|
    ensures TailOn(tx.sent, SendSegments(tx, ch, lane, order, key, parts, i).tx.sent, lane)
    decreases |parts| - i
  {
    hide SendReal;
    if i < |parts| {
      var p := Packet(lane, Some(SegmentMeta(key, i, |parts|)), order, None, parts[i]);
      SendRealShape(tx, ch, p);
      var r := SendReal(tx, ch, p);
      if r.out.Fine? {
        SegmentsTail(r.tx, ch, lane, order, key, parts, i + 1);
      }
    }
  }

  lemma SendPacketTail(tx: Tx, ch: Channel, lane: Lane, payload: Bytes)
    ensures TailOn(tx.sent, SendPacket(tx, ch, lane, payload).tx.sent, lane)
  {
    hide SendReal, SendSegments, Chunks;
    if !(ch.IsOrdered() && !tx.orders.Has(lane)) {
      var t := Submit(tx, ch, lane, payload);
      var order := if ch.IsOrdered() then Some(tx.orders.At(lane)) else None;
      if |payload| > MAX_NON_SEGMENTED_PAYLOAD {
        SegmentsTail(OpenMessage(t, lane, payload), ch, lane, order, t.segmentKeys, Chunks(payload), 0);
      } else {
        SendRealShape(t, ch, Packet(lane, None, order, None, payload));
      }
    }
  }

  lemma TailAcks(x: Endpoint, x': Endpoint, lane: Lane)
    requires AcksOk(x) && TailOn(x.tx.sent, x'.tx.sent, lane) && !IsAckLane(x.local, lane) && x.local.ack != NULL_ID
    requires x'.rx == x.rx && x'.ack == x.ack && x'.state == x.state && x'.local == x.local
    ensures AcksOk(x')
  {
    hide KeysOn, DecodeKeys, KeyList, ListedIn, KeysListed;
    KeysOnElsewhere(x.tx.sent, x'.tx.sent, ACK_LANE);
    KeysOnElsewhere(x.tx.sent, x'.tx.sent, Lane(Tra, x.local.ack));
  }

  lemma AppSendAcks(e: Env, x: Endpoint, g: nat, payload: Bytes)
    requires e.mine.WellFormed() && UpInv(e.mine, x) && AppChannel(e.mine, g) && AcksOk(x)
    ensures AcksOk(AppSend(x, e.mine, g, payload).x)
  {
    hide UpInv, SendPacket, AppChannel, IsAckLane, LaneChannel, AcksOk, AckLaneReady;
    AppLane(e, x, g);
    UpParts(e, x);
    if x.state.Transfer? && x.local.LocalId(Tra, g).Some? && e.mine.ById(g).Some? {
      var lane := Lane(Tra, x.local.LocalId(Tra, g).value);
      SendPacketTail(x.tx, e.mine.ById(g).value, lane, payload);
      TailAcks(x, AppSend(x, e.mine, g, payload).x, lane);
    }
  }

  // ---- Opening ----

  lemma {:induction false} AnnounceTail(x: Endpoint, listing: seq<Entry>, i: nat)
    requires i <= |listing|
    ensures var x' := AnnounceFrom(x, listing, i).x; TailOn(x.tx.sent, x'.tx.sent, MANAGEMENT_LANE) && x'.ack == x.ack
    decreases |listing| - i
  {
    hide SendPacket;
    if i < |listing| {
      SendPacketTail(x.tx, MANAGEMENT_CHANNEL, MANAGEMENT_LANE, RegistrationPayload(listing[i].name, i));
      var r := AnnounceOne(x, listing[i], i);
      if r.out.Fine? {
        AnnounceTail(r.x, listing, i + 1);
      }
    }
  }

  lemma InitializeTail(prov: Provider, listing: seq<Entry>)
    ensures var x' := Initialize(NewEndpoint(), prov, listing).x;
            TailOn([], x'.tx.sent, MANAGEMENT_LANE) && x'.ack == []
  {
    hide SendPacket, TooRoomy, AnnounceFrom;
    var y := WithListing(NewEndpoint(), prov, listing);
    AnnounceTail(y, listing, 0);
    SendPacketTail(AnnounceFrom(y, listing, 0).x.tx, MANAGEMENT_CHANNEL, MANAGEMENT_LANE, FINAL_PAYLOAD);
  }

  lemma OpenedAcks(prov: Provider, listing: seq<Entry>)
    requires prov.WellFormed() && IsListing(prov, listing) && !Initialize(NewEndpoint(), prov, listing).x.tx.wrapped
    ensures AcksOk(Initialize(NewEndpoint(), prov, listing).x)
  {
    hide Initialize, UpInv, SelfInv, IsListing, KeysOn, Provider.WellFormed;
    InitializeTail(prov, listing);
    InitializeGood(prov, listing);
    EmptyList();
    var x' := Initialize(NewEndpoint(), prov, listing).x;
    NoKeysOn(x'.tx.sent, ACK_LANE);
  }

  lemma NewAcks()
    ensures AcksOk(NewEndpoint())
  {
    EmptyList();
  }

  // ---- Every run ----

  lemma TakesAcks(e: Env, y: Endpoint, x: Endpoint, datagram: Bytes)
    requires PeerOk(e, y) && Good(e, y, x) && AcksOk(x) && datagram in y.tx.wire
    requires !Receive(x, e.mine, datagram).x.tx.wrapped
    ensures AcksOk(Receive(x, e.mine, datagram).x)
  {
    hide PeerOk, Good, Receive, Frame, AcksOk;
    var p := OnTheWire(e, y, datagram);
    ReceiveAcks(e, y, x, p);
  }

  lemma ActAcks(e: Env, y: Endpoint, n: Node, peer: Node, a: Action)
    requires PeerOk(e, y) && Good(e, y, n.x) && peer.x == y && AcksOk(n.x) && !a.Opens?
    requires Enabled(e.mine, n, peer, a) && !Act(e.mine, n, a).x.tx.wrapped
    ensures AcksOk(Act(e.mine, n, a).x)
  {
    hide PeerOk, Good, Receive, Tick, AppSend, AppChannel, Enumerates, AcksOk, UpInv, SelfInv;
    PeerEnv(e, y);
    GoodSelf(e, y, n.x);
    match a
    case Takes(datagram) => TakesAcks(e, y, n.x, datagram);
    case Ticks(delta) => TickAcks(n.x, delta);
    case Sends(global, payload) => AppSendAcks(e, n.x, global, payload);
  }

  lemma OpensAcks(prov: Provider, n: Node, peer: Node, a: Action)
    requires prov.WellFormed() && CountsOk(n) && a.Opens? && Enabled(prov, n, peer, a) && !Act(prov, n, a).x.tx.wrapped
    ensures AcksOk(Act(prov, n, a).x)
  {
    hide Initialize, AcksOk, Sorted, IsListing, Enumerates, Counted, Tallied, Provider.WellFormed;
    SortedListing(prov, a.all);
    OpenedAcks(prov, Sorted(prov, a.all));
  }

  lemma StepAcks(c: Config, s: Sys, e: Event)
    requires c.Ok() && SysInv(c, s) && Sound(c, s) && AcksOk(s.At(e.side).x)
    requires Unwrapped(s) && Unwrapped(Next(c, s, e))
    requires Enabled(c.At(e.side), s.At(e.side), s.At(e.side.Other()), e.action)
    ensures AcksOk(Next(c, s, e).At(e.side).x)
  {
    hide Sound, Act, PeerOk, Good, NodeOk, RecvInv, AcceptOk, QuietOk, KeysDistinct, Enabled, EnvOk, CountsOk, AcksOk,
         Provider.WellFormed;
    StillUnwrapped(Next(c, s, e), e.side);
    SoundSide(c, s, e.side);
    SideOk(c, s, e.side);
    if e.action.Opens? {
      OpensAcks(c.At(e.side), s.At(e.side), s.At(e.side.Other()), e.action);
    } else {
      Running(c.At(e.side), s.At(e.side), s.At(e.side.Other()), e.action);
      UpIsGood(c, s, e.side);
      ActAcks(c.EnvOf(e.side), s.At(e.side.Other()).x, s.At(e.side), s.At(e.side.Other()), e.action);
    }
  }

  /// Acknowledgements are conserved: in every reachable state the keys noted in the current stage are
  /// those in the packets sent on the lane of acknowledgements and then those in the buffer, in
  /// order; of those noted in registration the ones sent are the first, and the rest was dropped when
  /// the stage changed.
  lemma {:induction false} AcksConserved(c: Config, run: seq<Sys>, events: seq<Event>, i: nat, side: Side)
    requires c.Ok() && IsRun(c, run, events) && i < |run| && Unwrapped(run[i])
    ensures AcksOk(run[i].At(side).x)
  {
    hide SysInv, Sound, Enabled, Act, Unwrapped, Forward, AcksOk;
    if i == 0 {
      NewAcks();
    } else {
      var e := events[i - 1];
      assert run[i] == Next(c, run[i - 1], e);
      RunSound(c, run, events, i - 1);
      StepKeeps(c, run[i - 1], e);
      Before(run[i - 1], run[i]);
      UnwrappedSound(c, run[i - 1]);
      AcksConserved(c, run, events, i - 1, side);
      if e.side == side {
        StepAcks(c, run[i - 1], e);
      }
    }
  }
}
