/**
 What a step achieves: a payload goes on the wire whole and stays for resending, a packet that is due
 goes out again, a new payload in its turn is delivered, an acknowledged packet is released.
 */
module Progress {
  import opened Base
  import opened SlotKeys
  import opened SlotMaps
  import opened Framing
  import opened Channels
  import opened Endpoints
  import opened Sending
  import opened Acknowledging
  import opened Invariants
  import opened Receiving
  import opened Delivering
  import opened Arriving
  import opened Systems
  import opened Guarantees
  import opened Protocol
  import opened Turns
  import opened Panics
  import O = Ordering
  import R = Resend

  // ---- Sending ----

  /// Packet `p` is the only one that was sent, and it stays in the resender if the channel is reliable.
  ghost predicate SentOne(tx: Tx, tx': Tx, ch: Channel, p: Packet) {
    && tx'.sent == tx.sent + [p] && tx'.wire == tx.wire + [Frame(p)]
    && (p.key.Some? <==> ch.IsReliable())
    && (ch.IsReliable() ==>
          var r := ch.reliability.value;
          && p.key.value !in tx.resender.slots.AsMap()
          && tx'.resender.slots.AsMap()
             == tx.resender.slots.AsMap()[p.key.value := R.Buffered(Frame(p), r.interval, r.attempts, 0)])
    && (!ch.IsReliable() ==> tx'.resender == tx.resender)
  }

  lemma RealOnWire(tx: Tx, ch: Channel, p: Packet)
    requires tx.resender.slots.Valid() && tx.resender.slots.NextIndex() < U32 && p.key.None?
    ensures var r := SendReal(tx, ch, p);
            r.out.Fine? ==> SentOne(tx, r.tx, ch, p.(key := r.key)) && r.tx.resender.slots.Valid()
  {
    hide Frame, Slots.Valid, Slots.AsMap, Slots.NextIndex, Slots.NextKey, Slots.Put;
    if ch.IsReliable() {
      var rel := ch.reliability.value;
      var keyed := p.(key := Some(tx.resender.slots.NextKey()));
      PutRefines(tx.resender.slots, R.Buffered(Frame(keyed), rel.interval, rel.attempts, 0));
    }
  }

  /// A payload that fits goes out in one packet with the next order of its channel, and on a
  /// reliable channel it is kept, under a new key, for as many resends as the channel allows.
  lemma SentWhole(tx: Tx, ch: Channel, lane: Lane, payload: Bytes)
    requires tx.resender.slots.Valid() && tx.resender.slots.NextIndex() < U32
    requires |payload| <= MAX_NON_SEGMENTED_PAYLOAD && SendPacket(tx, ch, lane, payload).out.Fine?
    ensures var r := SendPacket(tx, ch, lane, payload);
            && r.tx.submitted == Log(tx.submitted, lane, payload)
            && (ch.IsOrdered() ==> tx.orders.Has(lane))
            && var order := if ch.IsOrdered() then Some(tx.orders.At(lane)) else None;
               SentOne(tx, r.tx, ch, Packet(lane, None, order, r.key, payload))
  {
    hide SendReal, SentOne;
    var t := Submit(tx, ch, lane, payload);
    var p := Packet(lane, None, if ch.IsOrdered() then Some(tx.orders.At(lane)) else None, None, payload);
    RealOnWire(t, ch, p);
    SendRealGrows(t, ch, p);
    SentFrom(tx, t, SendPacket(tx, ch, lane, payload).tx, ch, p.(key := SendPacket(tx, ch, lane, payload).key));
  }

  lemma SentFrom(tx: Tx, t: Tx, tx': Tx, ch: Channel, p: Packet)
    requires SentOne(t, tx', ch, p) && t.sent == tx.sent && t.wire == tx.wire && t.resender == tx.resender
    ensures SentOne(tx, tx', ch, p)
  {
  }

  /// What was sent and put on the wire after `tx` holds, at the place of segment `j`, that segment.
  ghost predicate SegmentAt(tx: Tx, tx': Tx, lane: Lane, order: Option<nat>, key: nat, parts: seq<Bytes>, i: nat,
        j: nat)
    requires i <= j < |parts|
  {
    && |tx.sent| + j - i < |tx'.sent| && |tx.wire| + j - i < |tx'.wire|
    && var p := tx'.sent[|tx.sent| + j - i];
    && p == Packet(lane, Some(SegmentMeta(key, j, |parts|)), order, p.key, parts[j])
    && tx'.wire[|tx.wire| + j - i] == Frame(p)
  }

  /// A packet is put on the wire, or nothing changes but for the reason it was not.
  lemma RealAppends(tx: Tx, ch: Channel, p: Packet)
    requires p.key.None? && p.lane.chan < NULL_ID
    requires p.seg.Some? ==> p.seg.value.segment < U16 && p.seg.value.count <= U16
    ensures var r := SendReal(tx, ch, p);
            if r.out.Fine? then
              r.tx.sent == tx.sent + [p.(key := r.key)] && r.tx.wire == tx.wire + [Frame(p.(key := r.key))]
            else
              && r.tx == tx && ch.IsReliable() && (r.out == Fail(ResenderFull) <==> tx.resender.Full())
              && (r.out.Crash? <==> tx.resender.Exhausted())
  {
    hide Frame;
  }

  /// A long message goes out as its segments, one packet each, in order, all under the message's key and
  /// order: all of them, or those before the first for which the resender is full or has no key left.
  lemma {:induction false} SentInSegments(tx: Tx, ch: Channel, lane: Lane, order: Option<nat>, key: nat,
        parts: seq<Bytes>, i: nat)
    requires i <= |parts| <= U16 && lane.chan < NULL_ID
    ensures var r := SendSegments(tx, ch, lane, order, key, parts, i);
            var n := |r.tx.sent| - |tx.sent|;
            && 0 <= n <= |parts| - i && |r.tx.wire| == |tx.wire| + n && (r.out.Fine? <==> n == |parts| - i)
            && (forall j: nat :: i <= j < i + n ==> SegmentAt(tx, r.tx, lane, order, key, parts, i, j))
            && (!r.out.Fine? ==> ch.IsReliable() && (r.out == Fail(ResenderFull) <==> r.tx.resender.Full())
                                 && (r.out.Crash? <==> r.tx.resender.Exhausted()))
    decreases |parts| - i
  {
    hide Frame, SendReal, R.Resender.Full, R.Resender.Exhausted;
    if i < |parts| {
      var p := Packet(lane, Some(SegmentMeta(key, i, |parts|)), order, None, parts[i]);
      var t := SendReal(tx, ch, p).tx;
      var tx' := SendSegments(tx, ch, lane, order, key, parts, i).tx;
      RealAppends(tx, ch, p);
      if SendReal(tx, ch, p).out.Fine? {
        SentInSegments(t, ch, lane, order, key, parts, i + 1);
        SegmentsGrow(t, ch, lane, order, key, parts, i + 1);
        PrefixIn(t.sent, tx'.sent);
        PrefixIn(t.wire, tx'.wire);
        forall j: nat | i <= j < i + |tx'.sent| - |tx.sent|
          ensures SegmentAt(tx, tx', lane, order, key, parts, i, j)
        {
          if j == i {
            assert tx'.sent[|tx.sent|] == t.sent[|tx.sent|] && tx'.wire[|tx.wire|] == t.wire[|tx.wire|];
          } else {
            assert SegmentAt(t, tx', lane, order, key, parts, i + 1, j);
          }
        }
      }
    }
  }

  // ---- The clock ----

  lemma InTail(front: seq<Bytes>, middle: seq<Bytes>, all: seq<Bytes>, d: Bytes)
    requires IsPrefix(front + middle, all) && d in middle
    ensures IsPrefix(front, all) && d in all[|front|..]
  {
    var n :| 0 <= n < |middle| && middle[n] == d;
    assert (front + middle)[|front| + n] == d;
    assert all[|front|..][n] == d;
    assert (front + middle)[..|front|] == front;
  }

  lemma TickWire(x: Endpoint, delta: nat)
    requires !x.tx.resender.Overflows(delta)
    ensures IsPrefix(x.tx.wire + x.tx.resender.Resent(delta), Tick(x, delta).x.tx.wire)
  {
    hide Flush, R.Resender.Resent, R.Resender.Update;
    FlushWire(Resend(x.tx, delta), x.ack, StageOf(x.state), x.local.ack);
  }

  /// A tick sends again every packet that is due.
  lemma TickResends(x: Endpoint, delta: nat, k: Key)
    requires x.tx.resender.slots.Valid() && k in x.tx.resender.slots.AsMap()
    requires R.DueAgain(x.tx.resender.slots.AsMap()[k], delta) && !x.tx.resender.Overflows(delta)
    ensures var tx' := Tick(x, delta).x.tx;
            IsPrefix(x.tx.wire, tx'.wire) && x.tx.resender.slots.AsMap()[k].payload in tx'.wire[|x.tx.wire|..]
  {
    var again := x.tx.resender.slots.AsMap()[k].payload;
    R.ResentExactly(x.tx.resender, delta, again);
    hide Tick, Slots.AsMap, Slots.Valid, R.DueAgain, R.Resender.Resent;
    TickWire(x, delta);
    InTail(x.tx.wire, x.tx.resender.Resent(delta), Tick(x, delta).x.tx.wire, again);
  }

  lemma FlushWire(tx: Tx, ack: Bytes, stage: Stage, ackId: nat)
    ensures IsPrefix(tx.wire, Flush(tx, ack, stage, ackId).tx.wire)
  {
    hide SendPacket;
    SendPacketGrows(tx, ACK_CHANNEL, AckLaneOf(stage, ackId), ack);
  }

  /// And it sends the acknowledgements gathered so far.
  lemma TickFlushes(x: Endpoint, delta: nat)
    requires Tick(x, delta).out.Fine? && |x.ack| <= MAX_NON_SEGMENTED_PAYLOAD
    ensures var x' := Tick(x, delta).x;
            && x'.ack == []
            && exists p :: x'.tx.sent == x.tx.sent + [p] && p.payload == x.ack && Frame(p) in x'.tx.wire
                           && p.lane == AckLaneOf(StageOf(x.state), x.local.ack)
  {
    hide Frame, R.Resender.Resent, R.Resender.Update, Flush;
    FlushSends(Resend(x.tx, delta), x.ack, StageOf(x.state), x.local.ack);
  }

  // ---- Delivery ----

  /// A packet that has its whole payload and is not an acknowledgement.
  ghost predicate Payload(y: Endpoint, p: Packet) {
    p in y.tx.sent && p.seg.None? && p.lane.stage.Tra? && !IsAckLane(y.local, p.lane) && Served(y, p.lane)
  }

  /// What becomes of a packet that is accepted in transfer. On an unordered channel its payload is
  /// delivered. On an ordered one its order reaches the orderer, which refuses it and is lost, or
  /// delivers exactly the run of consecutive payloads that now stands at the front.
  ghost predicate Delivered(x: Endpoint, r: Res, g: nat, p: Packet) {
    var before, after := BufferOf(x.rx.buffers, g), BufferOf(r.x.rx.buffers, g);
    if p.order.None? then r.out.Fine? && after == before + [p.payload]
    else
      match WindowOf(x, p.lane)
      case None =>
        && r.out.Crash? && WindowOf(r.x, p.lane).None? && after == before
        && Lookup(r.x.rx.pushed, p.lane) == Lookup(x.rx.pushed, p.lane)
      case Some(w) =>
        var o := p.order.value;
        && Lookup(r.x.rx.pushed, p.lane) == Lookup(x.rx.pushed, p.lane) + [o]
        && (WindowOf(r.x, p.lane).None? <==> w.Refuses(o) || w.Bursts(o))
        && if w.Bursts(o) then r.out.Crash? && after == before
           else if w.Refuses(o) then r.out == Fail(OrdererFull) && after == before
           else r.out.Fine? && DeliversRun(w.Push(o, p.payload).value, before, after)
  }

  ghost predicate DeliversRun(w: O.Window, before: seq<Bytes>, after: seq<Bytes>) {
    exists k :: FrontRun(w, k) && after == before + O.Run(w, k)
  }

  lemma TurnedDelivers(x: Endpoint, a: Endpoint, r: Res, g: nat, p: Packet)
    requires SameReceipts(x, a) && p.order.Some? && Turned(a, r, p.lane, g, p.order.value, p.payload)
    ensures Delivered(x, r, g, p)
  {
    hide FrontRun, O.Run;
  }

  lemma WholeDelivers(e: Env, y: Endpoint, x: Endpoint, p: Packet, g: nat, ch: Channel)
    requires Taking(e, y, x, p, g, ch) && Payload(y, p) && CanAccept(x, p.key) && !Accept(x, p.key).x.tx.wrapped
    ensures Delivered(x, ReceiveWhole(x, e.mine, p.lane, g, Header(p.order, p.key), p.payload), g, p)
  {
    hide Taking, PeerOk, Good, RecvInv, KeysDistinct, OrdersDistinct, BareOk, Extends, Accept, HandleOne, Genuine,
         AccKeys, Served, IsAckLane, LaneReady, CanAccept, UpInv, AcceptOk, Turned;
    TakingParts(e, y, x, p, g, ch);
    GoodParts(e, y, x);
    AcceptGood(e, y, x, p);
    AcceptExactly(e, x, p.key);
    var a := Accept(x, p.key);
    WholeGenuine(e, y, x, a.x, p, g, ch);
    ReadyStill(e, x, a.x, p.lane, g, ch);
    if p.order.Some? {
      OrderedExactly(e, y, a.x, p.lane, g, ch, p.order.value, p.payload);
      TurnedDelivers(x, a.x, Deliver(a.x, e.mine, p.lane, g, p.order, p.payload), g, p);
    } else {
      HandledAtOnce(e, y, a.x, p.lane, g, ch, p.payload);
    }
  }

  /// The packet is refused, or flushing the acknowledgements panics, and no receipt changes.
  ghost predicate RefusedAt(x: Endpoint, r: Res, p: Packet) {
    && SameReceipts(x, r.x)
    && if AcceptPanics(x, p.key) then r.out.Crash? else r.out.Fail?
  }

  /// A packet that cannot be accepted changes nothing that the application or an orderer has.
  lemma WholeRefused(e: Env, y: Endpoint, x: Endpoint, p: Packet, g: nat, ch: Channel)
    requires Taking(e, y, x, p, g, ch) && p.seg.None? && !CanAccept(x, p.key)
    ensures var r := ReceiveWhole(x, e.mine, p.lane, g, Header(p.order, p.key), p.payload);
            RefusedAt(x, r, p)
  {
    hide Taking, PeerOk, Good, RecvInv, KeysDistinct, OrdersDistinct, BareOk, Extends, Accept, Deliver, LaneReady,
         CanAccept, UpInv, AcceptOk;
    TakingParts(e, y, x, p, g, ch);
    GoodParts(e, y, x);
    AcceptGood(e, y, x, p);
    AcceptExactly(e, x, p.key);
  }

  lemma ReceiveDelivers(e: Env, y: Endpoint, x: Endpoint, p: Packet)
    requires PeerOk(e, y) && Good(e, y, x) && x.state.Transfer? && p.lane.chan < |x.rx.notLocal.localToGlobal|
    requires Payload(y, p) && !Receive(x, e.mine, Frame(p)).x.tx.wrapped
    ensures var g, r := x.rx.notLocal.localToGlobal[p.lane.chan], Receive(x, e.mine, Frame(p));
            if CanAccept(x, p.key) then Delivered(x, r, g, p) else RefusedAt(x, r, p)
  {
    hide PeerOk, Good, Extends, ReceiveWhole, ReceiveSegment, Frame, Taking, DecodeSegment, ReadHeader, DecodePrimary,
         Parse, LaneChannel, PacketFits, CanAccept, IsAckLane, Served, Delivered, Accept, SameReceipts;
    var g := x.rx.notLocal.localToGlobal[p.lane.chan];
    PacketKind(e, y, p);
    FrameRoundTrip(p);
    PrimaryRead(p);
    NameOfLane(e, y, x, p.lane.chan);
    var ch := e.mine.ById(g).value;
    TakingFrom(e, y, x, p, g, ch);
    TakingParts(e, y, x, p, g, ch);
    if CanAccept(x, p.key) {
      if Accept(x, p.key).x.tx.wrapped {
        BodyWraps(x, e.mine, p, g, ch);
      } else {
        WholeDelivers(e, y, x, p, g, ch);
      }
    } else {
      WholeRefused(e, y, x, p, g, ch);
    }
  }

  /// The sides of a step that takes a datagram.
  ghost predicate TakeStep(c: Config, run: seq<Sys>, events: seq<Event>, i: nat, side: Side, p: Packet) {
    && c.Ok() && IsRun(c, run, events) && i < |events| && events[i] == Event(side, Takes(Frame(p)))
    && Unwrapped(run[i + 1])
    && run[i].At(side).x.state.Transfer? && p.lane.chan < |run[i].At(side).x.rx.notLocal.localToGlobal|
    && Payload(run[i].At(side.Other()).x, p)
  }

  ghost function TakeResult(c: Config, run: seq<Sys>, i: nat, side: Side, p: Packet): Res
    requires i < |run|
  {
    Receive(run[i].At(side).x, c.At(side), Frame(p))
  }

  /// A new payload in its turn is delivered by the very step in which its datagram arrives, exactly,
  /// and one that is not new, or cannot be acknowledged, changes nothing.
  lemma DeliveryStep(c: Config, run: seq<Sys>, events: seq<Event>, i: nat, side: Side, p: Packet)
    requires TakeStep(c, run, events, i, side, p)
    ensures var x, r := run[i].At(side).x, TakeResult(c, run, i, side, p);
            && run[i + 1].At(side) == Node(if r.out.Crash? then Panicked else Up, r.x)
            && run[i + 1].At(side.Other()) == run[i].At(side.Other())
            && if CanAccept(x, p.key) then Delivered(x, r, x.rx.notLocal.localToGlobal[p.lane.chan], p)
               else RefusedAt(x, r, p)
  {
    hide PeerOk, Good, Facing, Sound, Receive, Frame, Payload, CanAccept, Delivered, SameReceipts, SysInv;
    assert run[i + 1] == Next(c, run[i], events[i]);
    RunSound(c, run, events, i);
    StepKeeps(c, run[i], events[i]);
    Before(run[i], run[i + 1]);
    Reached(c, run, events, i, side);
    InTransfer(c.EnvOf(side), run[i].At(side.Other()).x, run[i].At(side).x);
    ReceiveDelivers(c.EnvOf(side), run[i].At(side.Other()).x, run[i].At(side).x, p);
  }

  lemma StepInRun(c: Config, run: seq<Sys>, events: seq<Event>, i: nat, side: Side, p: Packet)
    requires TakeStep(c, run, events, i, side, p)
    ensures i + 1 < |run|
  {
    hide Payload, Enabled;
  }

  // ---- When an orderer is lost ----

  /// An order of the wire is refused exactly for having gone by or for lying too far ahead.
  lemma RefusesExactly(w: O.Window, order: nat)
    requires order < U32 && w.start < U32 && w.capacity <= USIZE - U32
    ensures w.Refuses(order) <==> order < w.start || order >= w.start + w.capacity
    ensures !w.Bursts(order)
  {
  }

  /// A packet loses its orderer if and only if it can be accepted and its order is refused or out of
  /// reach of any vector.
  lemma OrdererLostExactly(c: Config, run: seq<Sys>, events: seq<Event>, i: nat, side: Side, p: Packet)
    requires TakeStep(c, run, events, i, side, p) && p.order.Some? && WindowOf(run[i].At(side).x, p.lane).Some?
    ensures WindowOf(run[i + 1].At(side).x, p.lane).None?
       <==> CanAccept(run[i].At(side).x, p.key)
            && (var w := WindowOf(run[i].At(side).x, p.lane).value; w.Refuses(p.order.value) || w.Bursts(p.order.value))
  {
    hide TakeStep, CanAccept, O.Window.Refuses, O.Window.Bursts, TakeResult;
    DeliveryStep(c, run, events, i, side, p);
  }

  /// On an ordered channel that is not reliable there is no duplicate check: every arrival of a
  /// datagram pushes its order, so the second one overwrites the packet if it still waits and is
  /// refused as gone by if it was delivered.
  lemma UnreliableOrdersRepeat(c: Config, run: seq<Sys>, events: seq<Event>, i: nat, side: Side, p: Packet)
    requires TakeStep(c, run, events, i, side, p) && TakeStep(c, run, events, i + 1, side, p)
    requires p.order.Some? && p.key.None? && WindowOf(run[i].At(side).x, p.lane).Some?
    requires WindowOf(run[i + 1].At(side).x, p.lane).Some?
    ensures var o := p.order.value;
            && Lookup(run[i + 2].At(side).x.rx.pushed, p.lane) == Lookup(run[i].At(side).x.rx.pushed, p.lane) + [o, o]
            && !Distinct(Lookup(run[i + 2].At(side).x.rx.pushed, p.lane))
  {
    hide TakeStep, O.Window.Refuses, O.Window.Bursts, TakeResult;
    StepInRun(c, run, events, i + 1, side, p);
    DeliveryStep(c, run, events, i, side, p);
    DeliveryStep(c, run, events, i + 1, side, p);
    var o, was := p.order.value, Lookup(run[i].At(side).x.rx.pushed, p.lane);
    var now := Lookup(run[i + 2].At(side).x.rx.pushed, p.lane);
    assert Lookup(run[i + 1].At(side).x.rx.pushed, p.lane) == was + [o];
    assert now == (was + [o]) + [o] == was + [o, o];
    assert now[|was|] == now[|was| + 1];
  }

  /// A duplicate of a delivered datagram on such a channel, and any datagram of the channel after it,
  /// the same one again for instance, end the endpoint: the first loses the orderer, the second panics.
  lemma ReplayPanics(c: Config, run: seq<Sys>, events: seq<Event>, i: nat, side: Side, p: Packet, q: Packet)
    requires TakeStep(c, run, events, i, side, p) && TakeStep(c, run, events, i + 1, side, q)
    requires p.order.Some? && p.key.None? && q.lane == p.lane && q.order.Some? && q.key.None?
    requires WindowOf(run[i].At(side).x, p.lane).Some?
    requires var w := WindowOf(run[i].At(side).x, p.lane).value;
             p.order.value < w.start < U32 && w.capacity <= USIZE - U32
    ensures run[i + 1].At(side).phase.Up? && run[i + 2].At(side).phase.Panicked?
  {
    OrderInRange(c, run, events, i, side, p);
    hide TakeStep, O.Window.Refuses, O.Window.Bursts, TakeResult;
    RefusesExactly(WindowOf(run[i].At(side).x, p.lane).value, p.order.value);
    StepInRun(c, run, events, i + 1, side, q);
    DeliveryStep(c, run, events, i, side, p);
    DeliveryStep(c, run, events, i + 1, side, q);
  }

  /// A datagram on the wire of an ordered channel that is not reliable, whose order cannot be taken.
  ghost predicate Stale(y: Endpoint, x: Endpoint, p: Packet) {
    && x.state.Transfer? && p.lane.chan < |x.rx.notLocal.localToGlobal|
    && Payload(y, p) && Frame(p) in y.tx.wire && p.order.Some? && p.key.None?
    && (WindowOf(x, p.lane).None? || WindowOf(x, p.lane).value.Refuses(p.order.value))
  }

  /// The first such datagram loses the orderer, and any further one panics.
  function StaleResult(x: Endpoint, p: Packet): Res
    requires p.order.Some?
  {
    match WindowOf(x, p.lane)
    case None => Res(x, Crash)
    case Some(w) => Res(Taken(x, p.lane, p.order.value), if w.Bursts(p.order.value) then Crash else Fail(OrdererFull))
  }

  lemma StaleWhole(x: Endpoint, prov: Provider, p: Packet, g: nat, ch: Channel)
    requires FrameReads(p, Frame(p)) && p.seg.None? && ch.IsOrdered() && !ch.IsReliable() && p.order.Some?
    requires p.key.None?
    requires WindowOf(x, p.lane).None? || WindowOf(x, p.lane).value.Refuses(p.order.value)
    ensures ReceiveBody(x, prov, p.lane, g, ch, false, DecodePrimary(Frame(p)).rest) == StaleResult(x, p)
  {
    hide Frame, DecodePrimary, DecodeSegment, ReadHeader, O.Window.Refuses, O.Window.Bursts, O.Drain, Handler, Taken;
  }

  lemma StaleReceived(e: Env, y: Endpoint, x: Endpoint, p: Packet)
    requires PeerOk(e, y) && Good(e, y, x) && Stale(y, x, p)
    ensures Receive(x, e.mine, Frame(p)) == StaleResult(x, p)
  {
    hide PeerOk, Good, Frame, FrameReads, Taking, DecodePrimary, Parse, LaneChannel, PacketFits, IsAckLane, Served,
         O.Window.Refuses, StaleResult, ReceiveBody;
    var g := x.rx.notLocal.localToGlobal[p.lane.chan];
    PacketKind(e, y, p);
    FrameRoundTrip(p);
    PrimaryRead(p);
    NameOfLane(e, y, x, p.lane.chan);
    var ch := e.mine.ById(g).value;
    TakingFrom(e, y, x, p, g, ch);
    TakingParts(e, y, x, p, g, ch);
    StaleWhole(x, e.mine, p, g, ch);
  }

  lemma StaleKept(y: Endpoint, x: Endpoint, p: Packet)
    requires Stale(y, x, p)
    ensures var r := StaleResult(x, p);
            && r.x.tx == x.tx && Stale(y, r.x, p) && WindowOf(r.x, p.lane).None?
            && (WindowOf(x, p.lane).None? ==> r.out.Crash?)
            && (WindowOf(x, p.lane).Some? && !WindowOf(x, p.lane).value.Bursts(p.order.value) ==> r.out.Fail?)
  {
    hide Payload, Frame, O.Window.Refuses, O.Window.Bursts;
  }

  lemma RunLength(c: Config, run: seq<Sys>, events: seq<Event>)
    requires IsRun(c, run, events)
    ensures |run| == |events| + 1
  {
    hide Enabled, Next;
  }

  lemma RunExtends(c: Config, run: seq<Sys>, events: seq<Event>, e: Event)
    requires IsRun(c, run, events)
    requires var s := run[|events|]; Enabled(c.At(e.side), s.At(e.side), s.At(e.side.Other()), e.action)
    ensures IsRun(c, run + [Next(c, run[|events|], e)], events + [e])
  {
    hide Enabled, Next;
  }

  /// One stale datagram after any run.
  lemma StaleStep(c: Config, run: seq<Sys>, events: seq<Event>, side: Side, p: Packet)
    requires c.Ok() && IsRun(c, run, events) && Unwrapped(run[|events|]) && run[|events|].At(side).phase.Up?
    requires Stale(run[|events|].At(side.Other()).x, run[|events|].At(side).x, p)
    ensures var s, e := run[|events|], Event(side, Takes(Frame(p)));
            var s', r := Next(c, s, e), StaleResult(s.At(side).x, p);
            && IsRun(c, run + [s'], events + [e]) && Unwrapped(s')
            && s'.At(side.Other()) == s.At(side.Other())
            && s'.At(side) == Node(if r.out.Crash? then Panicked else Up, r.x)
  {
    hide PeerOk, Good, Facing, Sound, SysInv, Receive, Frame, Stale, StaleResult;
    RunExtends(c, run, events, Event(side, Takes(Frame(p)))) by {
      StaleOnWire(run[|events|].At(side.Other()).x, run[|events|].At(side).x, p);
    }
    hide IsRun;
    var x, y := run[|events|].At(side).x, run[|events|].At(side.Other()).x;
    Reached(c, run, events, |events|, side);
    StaleOnWire(y, x, p);
    InTransfer(c.EnvOf(side), y, x);
    StaleReceived(c.EnvOf(side), y, x, p);
    StaleKept(y, x, p);
  }

  lemma StaleOnWire(y: Endpoint, x: Endpoint, p: Packet)
    requires Stale(y, x, p)
    ensures Frame(p) in y.tx.wire && x.state.Transfer?
  {
    hide Payload, Frame;
  }

  lemma FirstReplay(c: Config, run: seq<Sys>, events: seq<Event>, side: Side, p: Packet)
    requires c.Ok() && IsRun(c, run, events) && Unwrapped(run[|events|]) && run[|events|].At(side).phase.Up?
    requires Stale(run[|events|].At(side.Other()).x, run[|events|].At(side).x, p)
    requires WindowOf(run[|events|].At(side).x, p.lane).Some?
    requires !WindowOf(run[|events|].At(side).x, p.lane).value.Bursts(p.order.value)
    ensures var e := Event(side, Takes(Frame(p))); var s' := Next(c, run[|events|], e);
            && IsRun(c, run + [s'], events + [e]) && Unwrapped(s') && s'.At(side).phase.Up?
            && Stale(s'.At(side.Other()).x, s'.At(side).x, p) && WindowOf(s'.At(side).x, p.lane).None?
  {
    RunLength(c, run, events);
    hide Frame, Stale, StaleResult, Next, Unwrapped, O.Window.Bursts, WindowOf, IsRun, Config.Ok;
    StaleStep(c, run, events, side, p);
    StaleKept(run[|events|].At(side.Other()).x, run[|events|].At(side).x, p);
  }

  lemma SecondReplay(c: Config, run: seq<Sys>, events: seq<Event>, side: Side, p: Packet)
    requires c.Ok() && IsRun(c, run, events) && Unwrapped(run[|events|]) && run[|events|].At(side).phase.Up?
    requires Stale(run[|events|].At(side.Other()).x, run[|events|].At(side).x, p)
    requires WindowOf(run[|events|].At(side).x, p.lane).None?
    ensures var e := Event(side, Takes(Frame(p))); var s' := Next(c, run[|events|], e);
            IsRun(c, run + [s'], events + [e]) && Unwrapped(s') && s'.At(side).phase.Panicked?
  {
    RunLength(c, run, events);
    hide Frame, Stale, StaleResult, Next, Unwrapped, O.Window.Bursts, WindowOf, IsRun, Config.Ok;
    StaleStep(c, run, events, side, p);
    StaleKept(run[|events|].At(side.Other()).x, run[|events|].At(side).x, p);
  }

  /// So after every run in which a payload of an ordered channel that is not reliable has had its
  /// turn, the network ends the receiver by repeating its datagram twice.
  lemma TwoReplaysPanic(c: Config, run: seq<Sys>, events: seq<Event>, side: Side, p: Packet)
    requires c.Ok() && IsRun(c, run, events) && Unwrapped(run[|events|]) && run[|events|].At(side).phase.Up?
    requires Stale(run[|events|].At(side.Other()).x, run[|events|].At(side).x, p)
    requires WindowOf(run[|events|].At(side).x, p.lane).Some?
    requires !WindowOf(run[|events|].At(side).x, p.lane).value.Bursts(p.order.value)
    ensures var e := Event(side, Takes(Frame(p)));
            exists run': seq<Sys> :: IsRun(c, run', events + [e] + [e]) && run < run' && Unwrapped(run'[|events| + 2])
                                     && run'[|events| + 2].At(side).phase.Panicked?
  {
    RunLength(c, run, events);
    hide Frame, Stale, Next, Unwrapped, O.Window.Bursts, WindowOf, IsRun, Config.Ok;
    var e := Event(side, Takes(Frame(p)));
    FirstReplay(c, run, events, side, p);
    var s1 := Next(c, run[|events|], e);
    assert (run + [s1])[|events + [e]|] == s1;
    SecondReplay(c, run + [s1], events + [e], side, p);
    assert (run + [s1] + [Next(c, s1, e)])[|events| + 2] == Next(c, s1, e);
  }

  lemma OrderInRange(c: Config, run: seq<Sys>, events: seq<Event>, i: nat, side: Side, p: Packet)
    requires TakeStep(c, run, events, i, side, p)
    ensures p.order.Some? ==> p.order.value < U32
  {
    hide PeerOk, Facing, Sound, Served, IsAckLane, Frame, Enabled, LaneChannel;
    RunSound(c, run, events, i);
    StepKeeps(c, run[i], events[i]);
    Before(run[i], run[i + 1]);
    Reached(c, run, events, i, side);
    InTransfer(c.EnvOf(side), run[i].At(side.Other()).x, run[i].At(side).x);
    PacketKind(c.EnvOf(side), run[i].At(side.Other()).x, p);
  }

  // ---- Release ----

  ghost function KeySet(ks: seq<Key>): set<Key> {
    set k | k in ks
  }

  /// What an acknowledgement of these keys does: the packets it lists leave the resender, exactly those
  /// of them that were stored are recorded as released, once each, and the key of the last registration
  /// is cleared if it is among them.
  ghost predicate Releases(x: Endpoint, x': Endpoint, ks: seq<Key>) {
    var stored, stored' := x.tx.resender.slots.AsMap(), x'.tx.resender.slots.AsMap();
    && x' == x.(state := x'.state, tx := x.tx.(resender := x.tx.resender.(slots := x'.tx.resender.slots),
                                              released := x'.tx.released))
    && stored' == stored - KeySet(ks) && IsPrefix(x.tx.released, x'.tx.released)
    && Distinct(x'.tx.released[|x.tx.released|..])
    && (forall k :: k in x'.tx.released[|x.tx.released|..] <==> k in ks && k in stored)
    && x'.state == (if x.state.Registration? && x.state.lastKey.Some? && x.state.lastKey.value in ks
                    then x.state.(lastKey := None) else x.state)
  }

  lemma OneReleased(x: Endpoint, k: Key, rest: seq<Key>)
    requires x.tx.resender.slots.Valid() && Fits(k) && k.index < |x.tx.resender.slots.generations|
    ensures var s, s' := x.tx.resender.slots, AckOne(x, k).tx.resender.slots;
            s'.Valid() && s'.generations == s.generations && s'.AsMap() == s.AsMap() - {k}
    ensures AckOne(x, k).tx.released == x.tx.released + if k in x.tx.resender.slots.AsMap() then [k] else []
    ensures AckLocally(x, EncodeKeys([k] + rest)) == AckLocally(AckOne(x, k), EncodeKeys(rest))
  {
    RemoveRefines(x.tx.resender.slots, k);
    GetRefines(x.tx.resender.slots, k);
    hide Slots.Valid, Slots.AsMap;
    assert ([k] + rest)[0] == k && ([k] + rest)[1..] == rest;
    KeyRoundTrip(k, EncodeKeys(rest));
  }

  lemma WithoutBoth<T>(m: map<Key, T>, k: Key, rest: seq<Key>)
    ensures m - {k} - KeySet(rest) == m - KeySet([k] + rest)
  {
    assert KeySet([k] + rest) == {k} + KeySet(rest);
  }

  /// One key more in front.
  lemma ReleasesOne(x: Endpoint, a: Endpoint, x': Endpoint, k: Key, rest: seq<Key>)
    requires a == AckOne(x, k) && Releases(a, x', rest)
    requires a.tx.resender.slots.AsMap() == x.tx.resender.slots.AsMap() - {k}
    requires a.tx.released == x.tx.released + if k in x.tx.resender.slots.AsMap() then [k] else []
    ensures Releases(x, x', [k] + rest)
  {
    WithoutBoth(x.tx.resender.slots.AsMap(), k, rest);
    hide Slots.AsMap, Slots.Remove, KeySet;
    var first := if k in x.tx.resender.slots.AsMap() then [k] else [];
    assert x'.tx.released[|x.tx.released|..] == first + x'.tx.released[|a.tx.released|..];
  }

  /// An acknowledgement takes exactly the packets it lists out of the resender.
  lemma {:induction false} AckReleases(x: Endpoint, ks: seq<Key>)
    requires x.tx.resender.slots.Valid()
    requires forall k :: k in ks ==> Fits(k) && k.index < |x.tx.resender.slots.generations|
    ensures var r := AckLocally(x, EncodeKeys(ks)); r.out.Fine? && Releases(x, r.x, ks)
    decreases |ks|
  {
    if ks == [] {
      hide Slots.Valid, Slots.AsMap;
      assert AckLocally(x, []) == Res(x, Fine);
      assert x.tx.resender.slots.AsMap() - KeySet(ks) == x.tx.resender.slots.AsMap();
    } else {
      hide Slots.Valid, Slots.AsMap, AckOne, AckLocally, EncodeKeys, Releases;
      var k, rest := ks[0], ks[1..];
      assert ks == [k] + rest;
      OneReleased(x, k, rest);
      AckReleases(AckOne(x, k), rest);
      ReleasesOne(x, AckOne(x, k), AckLocally(x, EncodeKeys(ks)).x, k, rest);
    }
  }
}
