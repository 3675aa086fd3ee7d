/**
 What the arrival of a datagram achieves beside the delivery of a whole payload: a stage entered on
 speculation, packets released by an acknowledgement, a message put together from its segments.
 */
module Arrivals {
  import opened Base
  import opened VarInt
  import opened SlotKeys
  import opened SlotMaps
  import opened Framing
  import opened Channels
  import opened Endpoints
  import opened Sending
  import opened Acknowledging
  import opened Invariants
  import opened Receiving
  import opened Delivering
  import opened Arriving
  import opened Systems
  import opened Guarantees
  import opened Protocol
  import opened Turns
  import opened Panics
  import opened Progress
  import opened Settling
  import opened Conserving
  import opened Possibility
  import O = Ordering
  import J = Joining
  import R = Resend

  // ---- The stage a packet is taken in ----

  /// A datagram of the peer is taken as by a receiver that has entered the stage already.
  lemma ArrivesAs(e: Env, y: Endpoint, x: Endpoint, p: Packet)
    requires PeerOk(e, y) && Good(e, y, x) && p in y.tx.sent
    ensures var z := AtArrival(x, p);
            && Good(e, y, z) && Receive(z, e.mine, Frame(p)) == Receive(x, e.mine, Frame(p))
            && Speculate(z, p.lane.chan) == z
  {
    hide PeerOk, Good, Extends, Frame, FrameReads, Receive, PacketFits, LaneChannel;
    PacketKind(e, y, p);
    FrameRoundTrip(p);
    SpeculateGood(e, y, x, p);
    SpeculateOnce(x, e.mine, p);
  }

  /// A packet of the receiver's own stage is taken on a channel that the receiver knows.
  lemma TakenOn(e: Env, y: Endpoint, x: Endpoint, p: Packet) returns (g: nat, ch: Channel)
    requires PeerOk(e, y) && Good(e, y, x) && p in y.tx.sent && p.lane.stage == StageOf(x.state)
    requires Speculate(x, p.lane.chan) == x
    ensures Taking(e, y, x, p, g, ch) && FrameReads(p, Frame(p))
    ensures Receive(x, e.mine, Frame(p))
         == ReceiveBody(x, e.mine, p.lane, g, ch, p.seg.Some?, DecodePrimary(Frame(p)).rest)
  {
    hide PeerOk, Good, Frame, FrameReads, Taking, DecodePrimary, LaneChannel, PacketFits, ReceiveBody, Speculate;
    PacketKind(e, y, p);
    FrameRoundTrip(p);
    PrimaryRead(p);
    StageServed(e, y, x, p);
    g := x.rx.notLocal.GlobalId(p.lane.stage, p.lane.chan).value;
    ch := ChannelOf(p.lane.stage, p.lane.chan, g, e.mine).value;
    TakingFrom(e, y, x, p, g, ch);
  }

  // ---- Speculation ----

  /// A channel that delivers the packet at once: it is unordered, or the packet is the next in order.
  ghost predicate InTurn(x: Endpoint, p: Packet) {
    p.order.Some? ==>
      WindowOf(x, p.lane).Some? && p.order.value == WindowOf(x, p.lane).value.start
      && WindowOf(x, p.lane).value.capacity > 0
  }

  /// In transfer with a clean slate: nothing is stored, and only this packet counts as received.
  ghost predicate CleanEntry(x: Endpoint, x': Endpoint, p: Packet) {
    && x'.state.Transfer? && x'.tx.resender.slots.AsMap() == map[]
    && x'.tx.sent == x.tx.sent && x'.tx.wire == x.tx.wire
    && x'.rx.dup == (if p.key.Some? then {p.key.value} else {})
    && x'.ack == (if p.key.Some? then EncodeKey(p.key.value) else [])
  }

  lemma NoneStored(s: Slots<R.Buffered>, t: Slots<R.Buffered>)
    requires s.values == [] && Fewer(s, t)
    ensures t.AsMap() == map[]
  {
  }

  lemma EntersClean(e: Env, y: Endpoint, z: Endpoint, p: Packet, x': Endpoint)
    requires PeerOk(e, y) && p in y.tx.sent && z.local.ack != NULL_ID
    requires z.state.Transfer? && z.ack == [] && z.rx.dup == {} && z.tx.resender.slots.values == []
    requires Quietly(Accept(z, p.key).x, x') && x'.state.Transfer?
    ensures CleanEntry(z, x', p) && CanAccept(z, p.key) && !Accept(z, p.key).x.tx.wrapped == !z.tx.wrapped
  {
    hide PeerOk, EncodeKey, Slots.AsMap;
    KeyFits(e, y, p);
    if p.key.Some? {
      AcceptFits(z, p.key.value);
    }
    NoneStored(Accept(z, p.key).x.tx.resender.slots, x'.tx.resender.slots);
  }

  /// The peer's last registration has arrived and a packet of the transfer stage comes: whatever it is,
  /// and whether or not the receiver's own last registration was ever acknowledged, the receiver is in
  /// transfer, with nothing left of registration among its duplicates, its stored packets and its
  /// acknowledgements.
  lemma SpeculationArrives(e: Env, y: Endpoint, x: Endpoint, p: Packet)
    requires PeerOk(e, y) && Good(e, y, x) && p in y.tx.sent && p.lane.stage.Tra?
    requires x.state.Registration? && x.state.receivedLast
    ensures CleanEntry(x, Receive(x, e.mine, Frame(p)).x, p)
  {
    hide PeerOk, Good, Frame, FrameReads, Receive, Taking, Extends, Speculate, ReceiveBody, DecodePrimary, Elsewhere,
         Quietly, Accept, Slots.AsMap, EncodeKey;
    ArrivesAs(e, y, x, p);
    var z := AtArrival(x, p);
    var g, ch := TakenOn(e, y, z, p);
    TakingParts(e, y, z, p, g, ch);
    GoodTable(e, y, z);
    var x' := Receive(x, e.mine, Frame(p)).x;
    BodyElsewhere(z, e.mine, p, g, ch);
    StaysTransfer(z, x', p);
    EntersClean(e, y, z, p, x');
  }

  lemma StaysTransfer(z: Endpoint, x': Endpoint, p: Packet)
    requires Elsewhere(z, x', p.lane) && z.state.Transfer?
    ensures x'.state.Transfer?
  {
  }

  lemma RunStarts(w: O.Window, k: nat)
    requires w.Valid() && w.start in w.pending && FrontRun(w, k)
    ensures k > 0 && |O.Run(w, k)| > 0 && O.Run(w, k)[0] == w.pending[w.start]
  {
    assert O.OrderAt(w.start, 0) == w.start;
  }

  lemma TurnDelivers(x: Endpoint, r: Res, g: nat, p: Packet)
    requires Delivered(x, r, g, p) && InTurn(x, p) && QuietOk(x)
    ensures r.out.Fine? && IsPrefix(BufferOf(x.rx.buffers, g) + [p.payload], BufferOf(r.x.rx.buffers, g))
  {
    hide O.Run, BufferOf;
    if p.order.Some? {
      var w := WindowOf(x, p.lane).value;
      assert x.rx.orderers.At(p.lane).Some? && w.Valid();
      var w' := w.Push(p.order.value, p.payload).value;
      var before, after := BufferOf(x.rx.buffers, g), BufferOf(r.x.rx.buffers, g);
      var k :| FrontRun(w', k) && after == before + O.Run(w', k);
      RunStarts(w', k);
      assert after[..|before| + 1] == before + [p.payload];
    }
  }

  /// And a payload in its turn is delivered by the datagram that brings the receiver into transfer.
  lemma SpeculationDelivers(e: Env, y: Endpoint, x: Endpoint, p: Packet)
    requires PeerOk(e, y) && Good(e, y, x) && p.lane.stage.Tra? && !x.tx.wrapped
    requires x.state.Registration? && x.state.receivedLast && Payload(y, p) && InTurn(x, p)
    ensures p.lane.chan < |x.rx.notLocal.localToGlobal|
    ensures var r, g := Receive(x, e.mine, Frame(p)), x.rx.notLocal.localToGlobal[p.lane.chan];
            r.out.Fine? && IsPrefix(BufferOf(x.rx.buffers, g) + [p.payload], BufferOf(r.x.rx.buffers, g))
  {
    hide PeerOk, Good, Frame, FrameReads, Receive, Taking, Extends, Speculate, ReceiveBody, ReceiveWhole, DecodePrimary,
         Quietly, Accept, Slots.AsMap, EncodeKey, Served, IsAckLane, Delivered, BufferOf, QuietOk, CanAccept;
    ArrivesAs(e, y, x, p);
    var z := AtArrival(x, p);
    var g, ch := TakenOn(e, y, z, p);
    TakingParts(e, y, z, p, g, ch);
    GoodTable(e, y, z);
    QuietlyRefl(Accept(z, p.key).x);
    AcceptStays(z, p.key);
    EntersClean(e, y, z, p, Accept(z, p.key).x);
    WholeBody(z, e.mine, p, g, ch);
    WholeDelivers(e, y, z, p, g, ch);
    QuietGoods(e, y, z);
    TurnDelivers(z, Receive(x, e.mine, Frame(p)), g, p);
    ReadyAt(e, z, p.lane, g, ch);
  }

  lemma QuietlyRefl(x: Endpoint)
    ensures Quietly(x, x)
  {
  }

  lemma AcceptStays(x: Endpoint, key: Option<Key>)
    ensures Accept(x, key).x.state == x.state
  {
    hide Acknowledge;
  }

  lemma QuietGoods(e: Env, y: Endpoint, x: Endpoint)
    requires Good(e, y, x)
    ensures QuietOk(x)
  {
    hide UpInv, AcceptOk, TableOk, LanesOk, QuietOk, BuffersOk, RoutedOk, JoiningOk, ReleasedOk, HandshakeOk;
  }

  lemma ReadyAt(e: Env, x: Endpoint, lane: Lane, g: nat, ch: Channel)
    requires LaneReady(e.mine, x, lane, g, ch) && lane.stage.Tra?
    ensures lane.chan < |x.rx.notLocal.localToGlobal| && x.rx.notLocal.localToGlobal[lane.chan] == g
  {
  }

  // ---- Release ----

  /// What an acknowledgement of these keys does. Of the packets it lists, exactly those that were stored
  /// are recorded as released, once each, and they leave the resender. In registration the receiver's
  /// own last packet may be among them, and if the peer's has come too the receiver goes on to transfer,
  /// with nothing left of acknowledgements, duplicates and stored packets.
  ghost predicate Released(a: Endpoint, x': Endpoint, ks: seq<Key>) {
    && IsPrefix(a.tx.released, x'.tx.released)
    && var stored, gained := a.tx.resender.slots.AsMap(), x'.tx.released[|a.tx.released|..];
    && Distinct(gained) && (forall k :: k in gained <==> k in ks && k in stored)
    && x'.tx.sent == a.tx.sent && x'.tx.wire == a.tx.wire && x'.rx.buffers == a.rx.buffers
    && if LeavesRegistration(a, ks) then
         x'.state.Transfer? && x'.tx.resender.slots.AsMap() == map[] && x'.rx.dup == {} && x'.ack == []
       else
         && x'.tx.resender.slots.AsMap() == stored - KeySet(ks) && x'.rx == a.rx && x'.ack == a.ack
         && x'.state == if a.state.Registration? then Registration(a.state.receivedLast, Unacked(a, ks)) else Transfer
  }

  /// The key of the last registration if it is still to be acknowledged.
  function Unacked(a: Endpoint, ks: seq<Key>): Option<Key>
    requires a.state.Registration?
  {
    if a.state.lastKey.Some? && a.state.lastKey.value in ks then None else a.state.lastKey
  }

  predicate LeavesRegistration(a: Endpoint, ks: seq<Key>) {
    a.state.Registration? && a.state.receivedLast && Unacked(a, ks).None?
  }

  lemma AckLaneTaken(e: Env, y: Endpoint, x: Endpoint, p: Packet, g: nat, ch: Channel)
    requires Taking(e, y, x, p, g, ch) && IsAckLane(y.local, p.lane)
    ensures p.seg.None? && p.order.None? && (x.state.Registration? ==> p.lane.chan == ACK_ID_REGISTRATION)
    ensures x.state.Transfer? ==> x.rx.notLocal.ack != NULL_ID && x.rx.notLocal.ack == p.lane.chan
  {
    hide PeerOk, Good, BareOk, KeysDistinct, OrdersDistinct, PacketOk;
    TakingParts(e, y, x, p, g, ch);
    PeerParts(e, y, p);
    PacketKind(e, y, p);
    AckUnordered(e, y, p);
    if x.state.Transfer? {
      SystemEntries(e, y, x);
    }
  }

  lemma AckUnordered(e: Env, y: Endpoint, p: Packet)
    requires PeerOk(e, y) && p in y.tx.sent && IsAckLane(y.local, p.lane)
    ensures p.seg.None? && p.order.None?
  {
    PeerParts(e, y, p);
  }

  lemma AckHandles(a: Endpoint, prov: Provider, lane: Lane, g: nat, ks: seq<Key>)
    requires a.tx.resender.slots.Valid()
    requires forall k :: k in ks ==> Fits(k) && k.index < |a.tx.resender.slots.generations|
    requires if a.state.Registration? then lane.chan == ACK_ID_REGISTRATION
             else a.rx.notLocal.ack != NULL_ID && a.rx.notLocal.ack == lane.chan
    ensures var r := HandleOne(a, prov, lane, g, EncodeKeys(ks)); r.out.Fine? && Released(a, r.x, ks)
  {
    hide AckLocally, EncodeKeys, Slots.Valid, Releases, Released, EnterTransfer;
    AckReleases(a, ks);
    var b := AckLocally(a, EncodeKeys(ks)).x;
    ReleasedFrom(a, b, ks);
  }

  lemma ReleasedFrom(a: Endpoint, b: Endpoint, ks: seq<Key>)
    requires Releases(a, b, ks)
    ensures b.state.Transfer? <==> a.state.Transfer?
    ensures Released(a, if a.state.Registration? then Converted(b) else b, ks)
  {
    hide KeySet;
  }

  lemma AckReady(e: Env, y: Endpoint, x: Endpoint, ks: seq<Key>)
    requires SelfInv(e.mine, x) && AcceptOk(x, y) && forall k :: k in ks ==> k in y.rx.noted
    ensures x.tx.resender.slots.Valid()
    ensures forall k :: k in ks ==> k.index < |x.tx.resender.slots.generations|
  {
    AcceptedKnown(e.mine, y, x);
    hide BufferOk, AnnouncedOk, AnnouncedAll, StagesOk, AcceptOk;
  }

  lemma AckNoted(e: Env, y: Endpoint, p: Packet, ks: seq<Key>)
    requires PeerOk(e, y) && p in y.tx.sent && IsAckLane(y.local, p.lane) && p.payload == EncodeKeys(ks)
    requires forall k :: k in ks ==> Fits(k)
    ensures forall k :: k in ks ==> k in y.rx.noted
  {
    hide PeerOk, PacketOk, KeysDistinct, OrdersDistinct, EncodeKeys, DecodeKeys;
    PeerParts(e, y, p);
    var ls :| p.payload == EncodeKeys(ls) && KeysIn(ls, y.rx.noted);
    KeysRoundTrip(ls);
    KeysRoundTrip(ks);
  }

  /// The arrival of an acknowledgement, in either stage: once it is accepted itself, it does all that and
  /// no more.
  lemma AcknowledgementArrives(e: Env, y: Endpoint, x: Endpoint, p: Packet, ks: seq<Key>)
    requires PeerOk(e, y) && Good(e, y, x) && AcceptOk(x, y) && p in y.tx.sent && IsAckLane(y.local, p.lane)
    requires p.payload == EncodeKeys(ks) && forall k :: k in ks ==> Fits(k)
    requires var z := AtArrival(x, p);
             p.lane.stage == StageOf(z.state) && CanAccept(z, p.key) && !Accept(z, p.key).x.tx.wrapped
    ensures var r := Receive(x, e.mine, Frame(p));
            r.out.Fine? && Released(Accept(AtArrival(x, p), p.key).x, r.x, ks)
  {
    hide PeerOk, Good, AcceptOk, Frame, FrameReads, Receive, Taking, Extends, Speculate, ReceiveBody, DecodePrimary,
         Accept, CanAccept, EncodeKeys, Released, IsAckLane, Slots.Valid, SelfInv, HandleOne, LaneReady, KeysDistinct,
         OrdersDistinct, BareOk;
    ArrivesAs(e, y, x, p);
    SpeculateGood(e, y, x, p);
    var z := AtArrival(x, p);
    var g, ch := TakenOn(e, y, z, p);
    TakingParts(e, y, z, p, g, ch);
    AcceptGood(e, y, z, p);
    GoodTable(e, y, z);
    GoodSelf(e, y, z);
    AckLaneTaken(e, y, z, p, g, ch);
    AcceptsIt(e, y, z, p);
    var a := Accept(z, p.key).x;
    GoodSelf(e, y, a);
    ExtendsAccept(x, z, y);
    ExtendsAccept(z, a, y);
    AckNoted(e, y, p, ks);
    AckReady(e, y, a, ks);
    WholeBody(z, e.mine, p, g, ch);
    WholeIs(z, e.mine, p, g);
    AckHandles(a, e.mine, p.lane, g, ks);
  }

  lemma AcceptsIt(e: Env, y: Endpoint, x: Endpoint, p: Packet)
    requires Good(e, y, x) && CanAccept(x, p.key)
    ensures Accept(x, p.key).out.Fine?
  {
    hide AcceptOk, TableOk, LanesOk, QuietOk, BuffersOk, RoutedOk, JoiningOk, ReleasedOk, HandshakeOk, Accept,
         CanAccept, UpInv;
    AcceptExactly(e, x, p.key);
  }

  lemma ExtendsAccept(x: Endpoint, x': Endpoint, y: Endpoint)
    requires Extends(x, x') && AcceptOk(x, y)
    ensures AcceptOk(x', y)
  {
    hide AcceptOk;
    AcceptMoves(x, x', y);
  }

  // ---- Segments ----

  /// The places of a message's list as the joiner holds it, all empty if it knows nothing of it.
  function Held(m: J.Joiner, meta: SegmentMeta): (places: seq<Option<Bytes>>) {
    if meta.key in m then m[meta.key].parts else seq(meta.count, _ => None)
  }

  /// The joined message as a packet of its own.
  function AsWhole(p: Packet, order: Option<nat>, full: Bytes): Packet {
    p.(seg := None, order := order, payload := full)
  }

  ghost predicate SameBuffers(x: Endpoint, x': Endpoint) {
    x'.rx.buffers == x.rx.buffers && x'.rx.orderers == x.rx.orderers && x'.rx.pushed == x.rx.pushed
  }

  /// What becomes of a segment `p` of the message `m` that is accepted in transfer. One that came before
  /// is refused and the joiner keeps what it has. Otherwise it is kept at its place. With the last one
  /// missing the list leaves the joiner, its segments are stripped of headers a second time, and the
  /// message is delivered as one that came whole, under the order that was read.
  ghost predicate Joins(x: Endpoint, r: Res, g: nat, p: Packet, m: Bytes)
    requires p.seg.Some?
  {
    var meta, held := p.seg.value, Held(x.rx.joiner, p.seg.value);
    && meta.segment < |held| == |Chunks(m)| && Chunks(m) != []
    && if held[meta.segment].Some? then
         r.out == Fail(JoinerRefused) && r.x.rx.joiner == x.rx.joiner && SameBuffers(x, r.x)
       else
         var filled := held[meta.segment := Some(p.payload)];
         if exists i :: 0 <= i < |filled| && filled[i].None? then
           && r.out.Fine? && SameBuffers(x, r.x)
           && r.x.rx.joiner.Keys == x.rx.joiner.Keys + {meta.key} && r.x.rx.joiner[meta.key].parts == filled
           && (forall k :: k in x.rx.joiner && k != meta.key ==> r.x.rx.joiner[k] == x.rx.joiner[k])
         else
           && r.x.rx.joiner == x.rx.joiner - {meta.key}
           && match Rejoin(p.order.Some?, p.key.Some?, Chunks(m))
              case Unreadable => r.out == Fail(DecodeError) && SameBuffers(x, r.x)
              case Crashed => r.out.Crash? && SameBuffers(x, r.x)
              case Joined(order, full) => Delivered(x, r, g, AsWhole(p, order, full))
  }

  lemma HeldJoin(y: Endpoint, x: Endpoint, p: Packet)
    requires JoiningOk(y, x) && p.seg.Some? && SegmentMatches(y.tx, p)
    ensures var meta, held, m := p.seg.value, Held(x.rx.joiner, p.seg.value), y.tx.messages[p.seg.value.key].payload;
            var j := J.Join(x.rx.joiner, meta, p.payload);
            && meta.segment < |held| == |Chunks(m)| && Chunks(m) != []
            && if held[meta.segment].Some? then j == J.Step(x.rx.joiner, J.Refused(J.SegmentRepeated))
               else
                 var filled := held[meta.segment := Some(p.payload)];
                 if exists i :: 0 <= i < |filled| && filled[i].None? then
                   && j.result == J.Pending && j.joiner.Keys == x.rx.joiner.Keys + {meta.key}
                   && j.joiner[meta.key].parts == filled
                   && (forall k :: k in x.rx.joiner && k != meta.key ==> j.joiner[k] == x.rx.joiner[k])
                 else
                   j == J.Step(x.rx.joiner - {meta.key}, J.Complete(Chunks(m)))
  {
    hide Chunks, J.Join, J.Holes;
    var meta, m := p.seg.value, y.tx.messages[p.seg.value.key].payload;
    J.JoinExactly(x.rx.joiner, meta, p.payload);
    Arriving.JoinParts(y, x.rx.joiner, p);
    if meta.key in x.rx.joiner {
      assert PartOk(y, meta.key, x.rx.joiner[meta.key]);
    }
  }

  lemma SegmentPieces(x: Endpoint, prov: Provider, lane: Lane, g: nat, ch: Channel, meta: SegmentMeta, h: Header,
        payload: Bytes)
    requires Accept(x, h.key).out.Fine?
    ensures var a, r := Accept(x, h.key).x, ReceiveSegment(x, prov, lane, g, ch, meta, h, payload);
            var j := J.Join(a.rx.joiner, meta, payload);
            var z := a.(rx := a.rx.(joiner := j.joiner));
            match j.result
            case Pending => r == Res(z, Fine)
            case Refused(_) => r == Res(z, Fail(JoinerRefused))
            case OutOfRange => true
            case Complete(parts) =>
              parts != [] ==>
                match Rejoin(ch.IsOrdered(), ch.IsReliable(), parts)
                case Unreadable => r == Res(z, Fail(DecodeError))
                case Crashed => r == Res(z, Crash)
                case Joined(order, full) => r == Deliver(z, prov, lane, g, order, full)
  {
    hide Accept, Deliver, J.Join, Rejoin;
  }

  /// The joined message, delivered.
  lemma MessageDelivers(e: Env, y: Endpoint, z: Endpoint, p: Packet, g: nat, ch: Channel, order: Option<nat>,
        full: Bytes)
    requires PeerOk(e, y) && Good(e, y, z) && z.state.Transfer? && LaneReady(e.mine, z, p.lane, g, ch)
    requires Served(y, p.lane) && !IsAckLane(y.local, p.lane) && Genuine(y, z, p.lane, ch, order, full)
    ensures var r := Deliver(z, e.mine, p.lane, g, order, full);
            Delivered(z, r, g, AsWhole(p, order, full)) && r.x.rx.joiner == z.rx.joiner
  {
    hide PeerOk, Good, Genuine, Served, IsAckLane, LaneReady, HandleOne, Turned, Delivered;
    if order.Some? {
      hide Deliver;
      OrderedExactly(e, y, z, p.lane, g, ch, order.value, full);
      TurnedDelivers(z, z, Deliver(z, e.mine, p.lane, g, order, full), g, AsWhole(p, order, full));
      TurnedJoiner(z, Deliver(z, e.mine, p.lane, g, order, full), p.lane, g, order.value, full);
    } else {
      HandledAtOnce(e, y, z, p.lane, g, ch, full);
      UnorderedDelivers(z, Deliver(z, e.mine, p.lane, g, None, full), g, AsWhole(p, None, full));
    }
  }

  lemma TurnedJoiner(x: Endpoint, r: Res, lane: Lane, g: nat, order: nat, payload: Bytes)
    requires Turned(x, r, lane, g, order, payload)
    ensures r.x.rx.joiner == x.rx.joiner
  {
    hide FrontRun, O.Run;
  }

  lemma UnorderedDelivers(x: Endpoint, r: Res, g: nat, p: Packet)
    requires p.order.None? && r.out.Fine?
    requires BufferOf(r.x.rx.buffers, g) == BufferOf(x.rx.buffers, g) + [p.payload]
    ensures Delivered(x, r, g, p)
  {
  }

  lemma DeliveredSame(x: Endpoint, z: Endpoint, r: Res, g: nat, p: Packet)
    requires Delivered(z, r, g, p) && SameBuffers(x, z)
    ensures Delivered(x, r, g, p)
  {
    hide DeliversRun, BufferOf;
  }

  lemma GoodJoining(e: Env, y: Endpoint, x: Endpoint)
    requires Good(e, y, x)
    ensures JoiningOk(y, x)
  {
    hide UpInv, AcceptOk, TableOk, LanesOk, QuietOk, BuffersOk, RoutedOk, ReleasedOk, HandshakeOk;
  }

  lemma SameAfterAccept(x: Endpoint, a: Endpoint, joiner: J.Joiner)
    requires SameReceipts(x, a)
    ensures SameBuffers(x, a.(rx := a.rx.(joiner := joiner))) && a.rx.joiner == x.rx.joiner
  {
  }

  /// The last missing segment.
  lemma LastDelivers(e: Env, y: Endpoint, x: Endpoint, z: Endpoint, p: Packet, g: nat, ch: Channel, joined: Rejoined)
    requires Taking(e, y, x, p, g, ch) && Good(e, y, z) && x.state.Transfer? && Served(y, p.lane) && p.seg.Some?
    requires z.state == x.state && z.rx.notLocal == x.rx.notLocal && SameBuffers(x, z) && joined.Joined?
    requires var m := y.tx.messages;
             p.seg.value.key < |m| && Chunks(m[p.seg.value.key].payload) != []
             && joined == Rejoin(ch.IsOrdered(), ch.IsReliable(), Chunks(m[p.seg.value.key].payload))
    ensures var r := Deliver(z, e.mine, p.lane, g, joined.order, joined.payload);
            Delivered(x, r, g, AsWhole(p, joined.order, joined.payload)) && r.x.rx.joiner == z.rx.joiner
  {
    hide PeerOk, Good, Genuine, Served, IsAckLane, LaneReady, Deliver, Delivered, Chunks, Rejoin, BareOk, KeysDistinct,
         OrdersDistinct, RecvInv, Taking, PacketOk, SameBuffers;
    TakingParts(e, y, x, p, g, ch);
    NotAcks(e, y, p);
    JoinedGenuine(e, y, z, p, ch, joined.order, joined.payload);
    ReadyStill(e, x, z, p.lane, g, ch);
    MessageDelivers(e, y, z, p, g, ch, joined.order, joined.payload);
    DeliveredSame(x, z, Deliver(z, e.mine, p.lane, g, joined.order, joined.payload), g,
                  AsWhole(p, joined.order, joined.payload));
  }

  lemma NotAcks(e: Env, y: Endpoint, p: Packet)
    requires PeerOk(e, y) && p in y.tx.sent && p.seg.Some?
    ensures !IsAckLane(y.local, p.lane) && p.lane.stage.Tra? && p.seg.value.key < |y.tx.messages|
    ensures SegmentMatches(y.tx, p) && Chunks(y.tx.messages[p.seg.value.key].payload) != []
    ensures y.tx.messages[p.seg.value.key].payload in Lookup(y.tx.submitted, p.lane)
  {
    hide PeerOk, Chunks;
    PeerParts(e, y, p);
  }

  /// The arrival of a segment in transfer, in every case.
  lemma SegmentArrives(e: Env, y: Endpoint, x: Endpoint, p: Packet)
    requires PeerOk(e, y) && Good(e, y, x) && x.state.Transfer? && p in y.tx.sent && p.seg.Some? && Served(y, p.lane)
    requires CanAccept(x, p.key) && !Accept(x, p.key).x.tx.wrapped
    ensures p.lane.chan < |x.rx.notLocal.localToGlobal| && p.seg.value.key < |y.tx.messages|
    ensures Joins(x, Receive(x, e.mine, Frame(p)), x.rx.notLocal.localToGlobal[p.lane.chan], p,
                  y.tx.messages[p.seg.value.key].payload)
  {
    hide PeerOk, Good, Frame, FrameReads, Receive, Taking, Extends, Speculate, ReceiveBody, ReceiveSegment,
         DecodePrimary, Accept, CanAccept, IsAckLane, Served, J.Join, Rejoin, Chunks, Delivered, SegmentMatches,
         LaneReady, Held, JoiningOk, SameReceipts, SameBuffers, KeysDistinct, OrdersDistinct, BareOk, RecvInv, Joins;
    SpeculateNot(x, p.lane.chan);
    NotAcks(e, y, p);
    var g, ch := TakenOn(e, y, x, p);
    TakingParts(e, y, x, p, g, ch);
    ReadyAt(e, x, p.lane, g, ch);
    AcceptGood(e, y, x, p);
    AcceptsIt(e, y, x, p);
    SegmentTaken(x, e.mine, p, g, ch);
    SegmentJoins(e, y, x, p, g, ch);
  }

  lemma SegmentTaken(x: Endpoint, prov: Provider, p: Packet, g: nat, ch: Channel)
    requires FrameReads(p, Frame(p)) && p.seg.Some?
    requires ch.IsOrdered() == p.order.Some? && ch.IsReliable() == p.key.Some?
    ensures ReceiveBody(x, prov, p.lane, g, ch, true, DecodePrimary(Frame(p)).rest)
         == ReceiveSegment(x, prov, p.lane, g, ch, p.seg.value, Header(p.order, p.key), p.payload)
  {
    hide Frame, DecodePrimary, DecodeSegment, ReadHeader, ReceiveSegment;
  }

  lemma SegmentJoins(e: Env, y: Endpoint, x: Endpoint, p: Packet, g: nat, ch: Channel)
    requires Taking(e, y, x, p, g, ch) && x.state.Transfer? && p.seg.Some? && Served(y, p.lane)
    requires Accept(x, p.key).out.Fine? && SameReceipts(x, Accept(x, p.key).x) && Accept(x, p.key).x.state == x.state
    requires Good(e, y, Accept(x, p.key).x) && p.seg.value.key < |y.tx.messages|
    ensures Joins(x, ReceiveSegment(x, e.mine, p.lane, g, ch, p.seg.value, Header(p.order, p.key), p.payload), g, p,
                  y.tx.messages[p.seg.value.key].payload)
  {
    hide PeerOk, Good, Taking, Extends, ReceiveSegment, Accept, IsAckLane, Served, J.Join, Rejoin, Chunks, Delivered,
         SegmentMatches, LaneReady, Held, JoiningOk, SameBuffers, KeysDistinct, OrdersDistinct, BareOk, RecvInv,
         PacketOk;
    TakingParts(e, y, x, p, g, ch);
    NotAcks(e, y, p);
    var a := Accept(x, p.key).x;
    GoodJoining(e, y, a);
    HeldJoin(y, a, p);
    var j := J.Join(a.rx.joiner, p.seg.value, p.payload);
    var z := a.(rx := a.rx.(joiner := j.joiner));
    SameAfterAccept(x, a, j.joiner);
    JoinerGood(e, y, a, p);
    SegmentPieces(x, e.mine, p.lane, g, ch, p.seg.value, Header(p.order, p.key), p.payload);
    if j.result.Complete? {
      var joined := Rejoin(ch.IsOrdered(), ch.IsReliable(), j.result.parts);
      if joined.Joined? {
        LastDelivers(e, y, x, z, p, g, ch, joined);
      }
    }
  }

  /// On a channel without headers the last missing segment delivers the message that was sent.
  lemma PlainJoins(x: Endpoint, r: Res, g: nat, p: Packet, m: Bytes)
    requires p.seg.Some? && p.order.None? && p.key.None? && m != [] && Joins(x, r, g, p, m)
    requires var held := Held(x.rx.joiner, p.seg.value);
             && held[p.seg.value.segment].None?
             && forall i :: 0 <= i < |held| && i != p.seg.value.segment ==> held[i].Some?
    ensures r.out.Fine? && BufferOf(r.x.rx.buffers, g) == BufferOf(x.rx.buffers, g) + [m]
    ensures r.x.rx.joiner == x.rx.joiner - {p.seg.value.key}
  {
    hide Chunks, Rejoin, Held;
    RejoinExactlyPlain(false, false, m);
    RejoinOrder(false, false, Chunks(m));
  }

  // ---- Packets that are not taken ----

  /// A packet of another stage changes nothing.
  lemma StrayArrives(e: Env, y: Endpoint, x: Endpoint, p: Packet)
    requires PeerOk(e, y) && Good(e, y, x) && p in y.tx.sent && p.lane.stage != StageOf(AtArrival(x, p).state)
    ensures Receive(x, e.mine, Frame(p)) == Res(x, Fail(UnknownChannel))
  {
    hide PeerOk, Good, Frame, FrameReads, DecodePrimary, LaneChannel, PacketFits, ReceiveBody, Extends, EnterTransfer;
    PacketKind(e, y, p);
    FrameRoundTrip(p);
    PrimaryRead(p);
    SpeculateGood(e, y, x, p);
    EntersTransfer(x);
    StageById(e, y, x, p);
    TableBelowReserved(e, y, x);
  }

  /// A datagram whose first number cannot be read, whoever sent it: one that ends too early is an error
  /// and changes nothing, one that goes on too long is a panic.
  lemma UnreadableArrives(x: Endpoint, prov: Provider, d: Bytes)
    ensures |d| <= 5 && (forall i :: 0 <= i < |d| ==> d[i] >= 128) ==>
              Receive(x, prov, d) == Res(x, Fail(DecodeError))
    ensures AsksOn(d, 5) ==> Receive(x, prov, d) == Res(x, Crash)
  {
    hide Decode, ReceiveBody;
    DecodeFails(d, 32);
  }

  /// A packet that does not get past the duplicate check, or cannot be acknowledged, does nothing else.
  lemma RefusedArrives(e: Env, y: Endpoint, x: Endpoint, p: Packet)
    requires PeerOk(e, y) && Good(e, y, x) && p in y.tx.sent && p.lane.stage == StageOf(AtArrival(x, p).state)
    requires !CanAccept(AtArrival(x, p), p.key)
    ensures Receive(x, e.mine, Frame(p)) == Accept(AtArrival(x, p), p.key)
    ensures RefusedAt(AtArrival(x, p), Receive(x, e.mine, Frame(p)), p)
    ensures var z, out := AtArrival(x, p), Receive(x, e.mine, Frame(p)).out;
            && p.key.Some?
            && (p.key.value in z.rx.dup ==> out == Fail(DuplicateDetected))
            && (p.key.value !in z.rx.dup ==> if z.tx.resender.Full() then out == Fail(ResenderFull) else out.Crash?)
  {
    hide PeerOk, Good, Frame, FrameReads, Receive, Taking, Extends, Speculate, ReceiveBody, DecodePrimary, Accept,
         CanAccept, LaneReady, AcceptOk, UpInv, SameReceipts, BareOk, KeysDistinct, OrdersDistinct, RecvInv,
         AcceptPanics;
    ArrivesAs(e, y, x, p);
    var z := AtArrival(x, p);
    var g, ch := TakenOn(e, y, z, p);
    TakingParts(e, y, z, p, g, ch);
    AcceptGood(e, y, z, p);
    GoodParts(e, y, z);
    AcceptExactly(e, z, p.key);
    RefusedWhy(e, y, z, p);
    if p.seg.None? {
      WholeBody(z, e.mine, p, g, ch);
      NotTakenWhole(z, e.mine, p, g);
    } else {
      SegmentTaken(z, e.mine, p, g, ch);
      NotTakenSegment(z, e.mine, p, g, ch);
    }
  }

  lemma RefusedWhy(e: Env, y: Endpoint, x: Endpoint, p: Packet)
    requires Good(e, y, x) && !CanAccept(x, p.key)
    ensures p.key.Some?
    ensures var out := Accept(x, p.key).out;
            if p.key.value in x.rx.dup then out == Fail(DuplicateDetected)
            else if x.tx.resender.Full() then out == Fail(ResenderFull) else out.Crash?
  {
    hide Good, EncodeKey, Frame, UpInv, TxInv, AckPayload, AckLaneReady, RecvInv, Chunks;
    GoodTable(e, y, x);
    GoodSelf(e, y, x);
    UpParts(e, x);
    AckLaneFits(e, x);
  }

  lemma NotTakenWhole(x: Endpoint, prov: Provider, p: Packet, g: nat)
    requires !Accept(x, p.key).out.Fine?
    ensures ReceiveWhole(x, prov, p.lane, g, Header(p.order, p.key), p.payload) == Accept(x, p.key)
  {
    hide Accept, Deliver;
  }

  lemma NotTakenSegment(x: Endpoint, prov: Provider, p: Packet, g: nat, ch: Channel)
    requires p.seg.Some? && !Accept(x, p.key).out.Fine?
    ensures ReceiveSegment(x, prov, p.lane, g, ch, p.seg.value, Header(p.order, p.key), p.payload) == Accept(x, p.key)
  {
    hide Accept, Deliver, J.Join, Rejoin;
  }

  // ---- Steps of a run ----

  /// A step that takes a datagram of the peer, with no counter starting over.
  ghost predicate Arrival(c: Config, run: seq<Sys>, events: seq<Event>, i: nat, side: Side, p: Packet) {
    && c.Ok() && IsRun(c, run, events) && i < |events| && events[i] == Event(side, Takes(Frame(p)))
    && Unwrapped(run[i + 1]) && p in run[i].At(side.Other()).x.tx.sent
  }

  lemma ArrivalSides(c: Config, run: seq<Sys>, events: seq<Event>, i: nat, side: Side, p: Packet)
    requires Arrival(c, run, events, i, side, p)
    ensures i + 1 < |run|
    ensures var x, y, r := run[i].At(side).x, run[i].At(side.Other()).x,
                Receive(run[i].At(side).x, c.At(side), Frame(p));
            && PeerOk(c.EnvOf(side), y) && Good(c.EnvOf(side), y, x) && AcceptOk(x, y) && p in y.tx.sent
            && run[i + 1].At(side) == Node(if r.out.Crash? then Panicked else Up, r.x)
            && !x.tx.wrapped && !r.x.tx.wrapped
  {
    hide SysInv, Sound, PeerOk, Good, Receive, Frame, NodeOk, RecvInv, AcceptOk, EnvOk, Facing, SelfInv, KeysDistinct,
         QuietOk;
    var s, e := run[i], events[i];
    assert run[i + 1] == Next(c, s, e);
    RunSound(c, run, events, i);
    StepKeeps(c, s, e);
    Before(s, run[i + 1]);
    UnwrappedSound(c, s);
    SoundSide(c, s, side);
    Running(c.At(side), s.At(side), s.At(side.Other()), e.action);
    UpIsGood(c, s, side);
    SidePair(c, s, side);
    RecvKeys(c.At(side.Other()), s.At(side).x, s.At(side.Other()).x);
  }

  /// Over all runs: a packet of the transfer stage brings a side that has the peer's last registration
  /// into transfer, with a clean slate, and if its payload is in its turn it is delivered at once.
  lemma SpeculationStep(c: Config, run: seq<Sys>, events: seq<Event>, i: nat, side: Side, p: Packet)
    requires Arrival(c, run, events, i, side, p) && p.lane.stage.Tra?
    requires run[i].At(side).x.state.Registration? && run[i].At(side).x.state.receivedLast
    ensures i + 1 < |run| && CleanEntry(run[i].At(side).x, run[i + 1].At(side).x, p)
    ensures Payload(run[i].At(side.Other()).x, p) && InTurn(run[i].At(side).x, p) ==>
              var x, x' := run[i].At(side).x, run[i + 1].At(side).x;
              && run[i + 1].At(side).phase.Up? && p.lane.chan < |x.rx.notLocal.localToGlobal|
              && var g := x.rx.notLocal.localToGlobal[p.lane.chan];
              IsPrefix(BufferOf(x.rx.buffers, g) + [p.payload], BufferOf(x'.rx.buffers, g))
  {
    hide Arrival, PeerOk, Good, AcceptOk, Receive, Frame, CleanEntry, Payload, InTurn, BufferOf;
    ArrivalSides(c, run, events, i, side, p);
    var e, x, y := c.EnvOf(side), run[i].At(side).x, run[i].At(side.Other()).x;
    PayloadSent(y, p);
    SpeculationArrives(e, y, x, p);
    if Payload(y, p) && InTurn(x, p) {
      SpeculationDelivers(e, y, x, p);
    }
  }

  lemma PayloadSent(y: Endpoint, p: Packet)
    ensures Payload(y, p) ==> p in y.tx.sent
  {
  }

  /// Over all runs: an acknowledgement that is accepted itself releases what it lists, in either stage.
  lemma AcknowledgementStep(c: Config, run: seq<Sys>, events: seq<Event>, i: nat, side: Side, p: Packet, ks: seq<Key>)
    requires Arrival(c, run, events, i, side, p) && IsAckLane(run[i].At(side.Other()).x.local, p.lane)
    requires p.payload == EncodeKeys(ks) && forall k :: k in ks ==> Fits(k)
    requires var z := AtArrival(run[i].At(side).x, p); p.lane.stage == StageOf(z.state) && CanAccept(z, p.key)
    ensures i + 1 < |run| && run[i + 1].At(side).phase.Up?
    ensures Released(Accept(AtArrival(run[i].At(side).x, p), p.key).x, run[i + 1].At(side).x, ks)
  {
    hide Arrival, PeerOk, Good, AcceptOk, Receive, Frame, Released, EncodeKeys, IsAckLane, CanAccept, Accept, AtArrival;
    ArrivalSides(c, run, events, i, side, p);
    var e, x, y := c.EnvOf(side), run[i].At(side).x, run[i].At(side.Other()).x;
    AcceptUnwrapped(e, y, x, p);
    AcknowledgementArrives(e, y, x, p, ks);
  }

  /// A counter that starts over while a packet is accepted stays noted.
  lemma AcceptUnwrapped(e: Env, y: Endpoint, x: Endpoint, p: Packet)
    requires PeerOk(e, y) && Good(e, y, x) && p in y.tx.sent && !Receive(x, e.mine, Frame(p)).x.tx.wrapped
    requires p.lane.stage == StageOf(AtArrival(x, p).state)
    ensures !Accept(AtArrival(x, p), p.key).x.tx.wrapped
  {
    hide PeerOk, Good, Frame, FrameReads, Receive, Taking, Extends, Speculate, ReceiveBody, DecodePrimary, Accept;
    ArrivesAs(e, y, x, p);
    var z := AtArrival(x, p);
    var g, ch := TakenOn(e, y, z, p);
    TakingParts(e, y, z, p, g, ch);
    if Accept(z, p.key).x.tx.wrapped {
      BodyWraps(z, e.mine, p, g, ch);
    }
  }

  /// Over all runs: what a segment that is accepted in transfer achieves.
  lemma SegmentStep(c: Config, run: seq<Sys>, events: seq<Event>, i: nat, side: Side, p: Packet)
    requires Arrival(c, run, events, i, side, p) && p.seg.Some? && run[i].At(side).x.state.Transfer?
    requires CanAccept(run[i].At(side).x, p.key)
    ensures var x, y, r := run[i].At(side).x, run[i].At(side.Other()).x,
                Receive(run[i].At(side).x, c.At(side), Frame(p));
            && i + 1 < |run| && run[i + 1].At(side) == Node(if r.out.Crash? then Panicked else Up, r.x)
            && p.lane.chan < |x.rx.notLocal.localToGlobal| && p.seg.value.key < |y.tx.messages|
            && var m := y.tx.messages[p.seg.value.key].payload;
            && m in Lookup(y.tx.submitted, p.lane)
            && Joins(x, r, x.rx.notLocal.localToGlobal[p.lane.chan], p, m)
  {
    hide Arrival, PeerOk, Good, AcceptOk, Receive, Frame, IsAckLane, CanAccept, Accept, Joins, Chunks;
    ArrivalSides(c, run, events, i, side, p);
    var e, x, y := c.EnvOf(side), run[i].At(side).x, run[i].At(side.Other()).x;
    NotAcks(e, y, p);
    PeerServes(e, y, p);
    AcceptUnwrapped(e, y, x, p);
    SegmentArrives(e, y, x, p);
  }

  /// So on a channel that is neither ordered nor reliable, the last missing segment of a long message
  /// delivers the message as its sender submitted it.
  lemma LongMessageStep(c: Config, run: seq<Sys>, events: seq<Event>, i: nat, side: Side, p: Packet)
    requires Arrival(c, run, events, i, side, p) && p.seg.Some? && run[i].At(side).x.state.Transfer?
    requires p.order.None? && p.key.None?
    requires var held := Held(run[i].At(side).x.rx.joiner, p.seg.value);
             && p.seg.value.segment < |held| && held[p.seg.value.segment].None?
             && forall j :: 0 <= j < |held| && j != p.seg.value.segment ==> held[j].Some?
    ensures var x, y := run[i].At(side).x, run[i].At(side.Other()).x;
            && i + 1 < |run| && p.lane.chan < |x.rx.notLocal.localToGlobal| && p.seg.value.key < |y.tx.messages|
            && var m, g := y.tx.messages[p.seg.value.key].payload, x.rx.notLocal.localToGlobal[p.lane.chan];
            && m in Lookup(y.tx.submitted, p.lane)
            && BufferOf(run[i + 1].At(side).x.rx.buffers, g) == BufferOf(x.rx.buffers, g) + [m]
  {
    hide Arrival, Receive, Frame, Joins, Chunks, Held, BufferOf;
    SegmentStep(c, run, events, i, side, p);
    var x, y := run[i].At(side).x, run[i].At(side.Other()).x;
    var m := y.tx.messages[p.seg.value.key].payload;
    JoinsSome(x, Receive(x, c.At(side), Frame(p)), x.rx.notLocal.localToGlobal[p.lane.chan], p, m);
    PlainJoins(x, Receive(x, c.At(side), Frame(p)), x.rx.notLocal.localToGlobal[p.lane.chan], p, m);
  }

  lemma JoinsSome(x: Endpoint, r: Res, g: nat, p: Packet, m: Bytes)
    requires p.seg.Some? && Joins(x, r, g, p, m)
    ensures m != []
  {
    hide Rejoin, Held, Delivered;
  }

  /// Over all runs: a packet that is not taken. One of another stage changes nothing; one that counts as
  /// a duplicate changes nothing either; one that cannot be acknowledged is marked as a duplicate.
  lemma RefusedStep(c: Config, run: seq<Sys>, events: seq<Event>, i: nat, side: Side, p: Packet)
    requires Arrival(c, run, events, i, side, p)
    requires var z := AtArrival(run[i].At(side).x, p); p.lane.stage == StageOf(z.state) ==> !CanAccept(z, p.key)
    ensures i + 1 < |run|
    ensures var x, x' := run[i].At(side).x, run[i + 1].At(side).x;
            var z := AtArrival(x, p);
            && (p.lane.stage != StageOf(z.state) ==> x' == x)
            && (p.lane.stage == StageOf(z.state) ==> SameReceipts(z, x') && x'.state == z.state)
            && (p.lane.stage == StageOf(z.state) && p.key.value in z.rx.dup ==> x' == z)
            && (p.lane.stage == StageOf(z.state) && p.key.value !in z.rx.dup ==> x'.rx.dup == z.rx.dup + {p.key.value})
  {
    hide Arrival, PeerOk, Good, AcceptOk, Receive, Frame, CanAccept, Accept, AtArrival, SameReceipts;
    ArrivalSides(c, run, events, i, side, p);
    var e, x, y := c.EnvOf(side), run[i].At(side).x, run[i].At(side.Other()).x;
    var z := AtArrival(x, p);
    if p.lane.stage == StageOf(z.state) {
      RefusedArrives(e, y, x, p);
      RefusedShape(z, p.key);
    } else {
      StrayArrives(e, y, x, p);
    }
  }

  lemma RefusedShape(x: Endpoint, key: Option<Key>)
    requires !CanAccept(x, key)
    ensures key.Some? && Accept(x, key).x.state == x.state
    ensures key.value in x.rx.dup ==> Accept(x, key).x == x
    ensures key.value !in x.rx.dup ==> Accept(x, key).x.rx.dup == x.rx.dup + {key.value}
  {
    hide Acknowledge;
  }
}
