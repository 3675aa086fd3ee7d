/**
 The 32-bit counters of an endpoint never run ahead of its history, so a counter can only have
 started over after 2^32 packets, messages or payloads of one channel.
 */
module Counting {
  import opened Base
  import opened SlotKeys
  import opened Strings
  import opened VarInt
  import opened SlotMaps
  import opened Framing
  import opened Channels
  import opened Endpoints
  import opened Sending
  import opened Acknowledging
  import O = Ordering
  import R = Resend
  import J = Joining

  /// Fewer than 2^32 packets and messages, and fewer than 2^32 payloads on each channel.
  ghost predicate Few(tx: Tx) {
    |tx.sent| < U32 && |tx.messages| < U32 && forall lane :: |Lookup(tx.submitted, lane)| < U32
  }

  ghost predicate Counted(tx: Tx) {
    && SlotsCounted(tx.resender.slots, |tx.sent|) && tx.resender.slots.Len() <= tx.resender.capacity
    && OrdersCounted(tx.orders, tx.submitted)
    && tx.segmentKeys <= |tx.messages|
    && (tx.wrapped ==> !Few(tx))
  }

  ghost predicate SlotsCounted(s: Slots<R.Buffered>, n: nat) {
    s.Valid() && |s.generations| <= n && forall i :: 0 <= i < |s.generations| ==> s.generations[i] <= n
  }

  ghost predicate OrdersCounted(orders: PerChannel<nat>, submitted: map<Lane, seq<Bytes>>) {
    forall lane {:trigger orders.Has(lane)} :: orders.Has(lane) ==> orders.At(lane) <= |Lookup(submitted, lane)|
  }

  /// Counters stay counted, and the flag of a counter that has started over stays up.
  ghost predicate Upward(tx: Tx, tx': Tx) {
    (tx.wrapped ==> tx'.wrapped) && (Counted(tx) ==> Counted(tx'))
  }

  // ---- Packets against payloads ----

  /// The payloads of the packets that `f` chooses.
  function Payloads(sent: seq<Packet>, f: Packet -> bool): multiset<Bytes> {
    if sent == [] then multiset{}
    else
      var p := sent[|sent| - 1];
      Payloads(sent[..|sent| - 1], f) + if f(p) then multiset{p.payload} else multiset{}
  }

  function WholeOn(lane: Lane): Packet -> bool {
    (p: Packet) => p.lane == lane && p.seg.None?
  }

  lemma OneMorePacket(sent: seq<Packet>, p: Packet, f: Packet -> bool)
    ensures Payloads(sent + [p], f) == Payloads(sent, f) + if f(p) then multiset{p.payload} else multiset{}
  {
    assert (sent + [p])[..|sent|] == sent;
  }

  /// A payload goes out whole at most as often as it was submitted.
  ghost predicate Tallied(sent: seq<Packet>, submitted: map<Lane, seq<Bytes>>) {
    forall lane :: Payloads(sent, WholeOn(lane)) <= multiset(Lookup(submitted, lane))
  }

  lemma SendRealShape(tx: Tx, ch: Channel, p: Packet)
    ensures var r := SendReal(tx, ch, p);
            && r.tx.submitted == tx.submitted
            && (r.tx.sent == tx.sent || r.tx.sent == tx.sent + [p] || r.tx.sent == tx.sent + [p.(key := r.key)])
  {
    hide Frame;
  }

  lemma SendRealWhole(tx: Tx, ch: Channel, p: Packet, lane: Lane)
    ensures var t, was := SendReal(tx, ch, p).tx, Payloads(tx.sent, WholeOn(lane));
            && t.submitted == tx.submitted
            && Payloads(t.sent, WholeOn(lane)) <= was + (if WholeOn(lane)(p) then multiset{p.payload} else multiset{})
  {
    hide SendReal, Payloads;
    SendRealShape(tx, ch, p);
    OneMorePacket(tx.sent, p, WholeOn(lane));
    OneMorePacket(tx.sent, p.(key := SendReal(tx, ch, p).key), WholeOn(lane));
  }

  lemma {:induction false} SegmentsWhole(tx: Tx, ch: Channel, lane: Lane, order: Option<nat>, key: nat,
        parts: seq<Bytes>, i: nat, l: Lane)
    requires i <= |parts|
    ensures var t := SendSegments(tx, ch, lane, order, key, parts, i).tx;
            t.submitted == tx.submitted && Payloads(t.sent, WholeOn(l)) <= Payloads(tx.sent, WholeOn(l))
    decreases |parts| - i
  {
    hide Payloads, SendReal;
    if i < |parts| {
      var p := Packet(lane, Some(SegmentMeta(key, i, |parts|)), order, None, parts[i]);
      SendRealWhole(tx, ch, p, l);
      var r := SendReal(tx, ch, p);
      if r.out.Fine? {
        SegmentsWhole(r.tx, ch, lane, order, key, parts, i + 1, l);
      }
    }
  }

  lemma SubmitWhole(tx: Tx, ch: Channel, lane: Lane, payload: Bytes, l: Lane)
    requires ch.IsOrdered() ==> tx.orders.Has(lane)
    ensures var t := Submit(tx, ch, lane, payload);
            && t.sent == tx.sent
            && multiset(Lookup(t.submitted, l))
               == multiset(Lookup(tx.submitted, l)) + (if l == lane then multiset{payload} else multiset{})
  {
  }

  lemma SendPacketWhole(tx: Tx, ch: Channel, lane: Lane, payload: Bytes, l: Lane)
    requires Payloads(tx.sent, WholeOn(l)) <= multiset(Lookup(tx.submitted, l))
    ensures var t := SendPacket(tx, ch, lane, payload).tx;
            Payloads(t.sent, WholeOn(l)) <= multiset(Lookup(t.submitted, l))
  {
    hide Payloads, SendReal, SendSegments, Chunks, Submit, Lookup;
    if !(ch.IsOrdered() && !tx.orders.Has(lane)) {
      var t := Submit(tx, ch, lane, payload);
      SubmitWhole(tx, ch, lane, payload, l);
      var order := if ch.IsOrdered() then Some(tx.orders.At(lane)) else None;
      if |payload| > MAX_NON_SEGMENTED_PAYLOAD {
        SegmentsWhole(OpenMessage(t, lane, payload), ch, lane, order, t.segmentKeys, Chunks(payload), 0, l);
      } else {
        SendRealWhole(t, ch, Packet(lane, None, order, None, payload), l);
      }
    }
  }

  lemma SendPacketTallied(tx: Tx, ch: Channel, lane: Lane, payload: Bytes)
    requires Tallied(tx.sent, tx.submitted)
    ensures var t := SendPacket(tx, ch, lane, payload).tx; Tallied(t.sent, t.submitted)
  {
    hide SendPacket, Payloads;
    forall l
      ensures var t := SendPacket(tx, ch, lane, payload).tx;
              Payloads(t.sent, WholeOn(l)) <= multiset(Lookup(t.submitted, l))
    {
      SendPacketWhole(tx, ch, lane, payload, l);
    }
  }

  /// A step from which both come out as they went in.
  ghost predicate Onward(tx: Tx, tx': Tx) {
    Upward(tx, tx') && (Tallied(tx.sent, tx.submitted) ==> Tallied(tx'.sent, tx'.submitted))
  }

  /// Besides, what was put in a buffer stays there, and transfer is final.
  ghost predicate Forward(x: Endpoint, x': Endpoint) {
    && Onward(x.tx, x'.tx)
    && (forall g {:trigger BufferOf(x'.rx.buffers, g)} ::
          IsPrefix(BufferOf(x.rx.buffers, g), BufferOf(x'.rx.buffers, g)))
    && (x.state.Transfer? ==> x'.state.Transfer?)
  }

  /// A step of the connection itself submits and sends nothing but acknowledgements.
  ghost predicate Reacts(x: Endpoint, x': Endpoint) {
    && Forward(x, x') && x'.local == x.local
    && (forall lane {:trigger Lookup(x'.tx.submitted, lane)} :: !IsAckLane(x.local, lane) ==>
          Lookup(x'.tx.submitted, lane) == Lookup(x.tx.submitted, lane))
    && (forall p :: p in x'.tx.sent ==> p in x.tx.sent || IsAckLane(x.local, p.lane))
  }

  // ---- Sending ----

  lemma SendRealUpward(tx: Tx, ch: Channel, p: Packet)
    ensures Upward(tx, SendReal(tx, ch, p).tx)
  {
    hide Frame;
    var s, r := tx.resender.slots, SendReal(tx, ch, p);
    if Counted(tx) && r.out.Fine? {
      assert |r.tx.sent| == |tx.sent| + 1;
      if ch.IsReliable() {
        var b := R.Buffered(r.tx.wire[|tx.wire|], ch.reliability.value.interval, ch.reliability.value.attempts, 0);
        PutValid(s, b);
        assert s.NextIndex() <= |s.values|;
      }
      assert SlotsCounted(r.tx.resender.slots, |r.tx.sent|);
    }
  }

  lemma SubmitUpward(tx: Tx, ch: Channel, lane: Lane, payload: Bytes)
    requires ch.IsOrdered() ==> tx.orders.Has(lane)
    ensures Upward(tx, Submit(tx, ch, lane, payload))
  {
    hide SlotsCounted;
    var t := Submit(tx, ch, lane, payload);
    if Counted(tx) {
      assert |Lookup(t.submitted, lane)| == |Lookup(tx.submitted, lane)| + 1;
      forall l: Lane | t.orders.Has(l)
        ensures t.orders.At(l) <= |Lookup(t.submitted, l)|
      {
        assert tx.orders.Has(l);
      }
      if tx.wrapped {
        StillMany(tx, t);
      }
    }
  }

  lemma StillMany(tx: Tx, t: Tx)
    requires !Few(tx) && |tx.sent| <= |t.sent| && |tx.messages| <= |t.messages|
    requires forall lane :: |Lookup(tx.submitted, lane)| <= |Lookup(t.submitted, lane)|
    ensures !Few(t)
  {
  }

  lemma OpenUpward(tx: Tx, lane: Lane, payload: Bytes)
    ensures Upward(tx, OpenMessage(tx, lane, payload))
  {
    hide SlotsCounted;
  }

  lemma {:induction false} SegmentsUpward(tx: Tx, ch: Channel, lane: Lane, order: Option<nat>, key: nat,
        parts: seq<Bytes>, i: nat)
    requires i <= |parts|
    ensures Upward(tx, SendSegments(tx, ch, lane, order, key, parts, i).tx)
    decreases |parts| - i
  {
    hide Counted, SendReal;
    if i < |parts| {
      var p := Packet(lane, Some(SegmentMeta(key, i, |parts|)), order, None, parts[i]);
      SendRealUpward(tx, ch, p);
      var r := SendReal(tx, ch, p);
      if r.out.Fine? {
        SegmentsUpward(r.tx, ch, lane, order, key, parts, i + 1);
      }
    }
  }

  lemma SendPacketOnward(tx: Tx, ch: Channel, lane: Lane, payload: Bytes)
    ensures Onward(tx, SendPacket(tx, ch, lane, payload).tx)
  {
    hide Counted, Tallied, SendReal, Submit, OpenMessage;
    if Tallied(tx.sent, tx.submitted) {
      SendPacketTallied(tx, ch, lane, payload);
    }
    if !(ch.IsOrdered() && !tx.orders.Has(lane)) {
      SubmitUpward(tx, ch, lane, payload);
      var t := Submit(tx, ch, lane, payload);
      var order := if ch.IsOrdered() then Some(tx.orders.At(lane)) else None;
      if |payload| > MAX_NON_SEGMENTED_PAYLOAD {
        OpenUpward(t, lane, payload);
        SegmentsUpward(OpenMessage(t, lane, payload), ch, lane, order, t.segmentKeys, Chunks(payload), 0);
      } else {
        SendRealUpward(t, ch, Packet(lane, None, order, None, payload));
      }
    }
  }

  lemma FlushOnward(tx: Tx, ack: Bytes, stage: Stage, ackId: nat)
    ensures Onward(tx, Flush(tx, ack, stage, ackId).tx)
  {
    hide Counted, Tallied, SendPacket;
    SendPacketOnward(tx, ACK_CHANNEL, AckLaneOf(stage, ackId), ack);
  }

  // ---- Releasing, clearing, resending ----

  lemma AckOneReacts(x: Endpoint, k: Key)
    ensures Reacts(x, AckOne(x, k))
  {
    hide Tallied;
    if Counted(x.tx) {
      RemoveValid(x.tx.resender.slots, k);
    }
  }

  lemma {:induction false} AckLocallyReacts(x: Endpoint, packet: Bytes)
    ensures Reacts(x, AckLocally(x, packet).x)
    decreases |packet|
  {
    hide Counted, Tallied, AckOne;
    match DecodeKey(packet)
    case Got(k, rest) =>
      if k.index < |x.tx.resender.slots.generations| {
        AckOneReacts(x, k);
        AckLocallyReacts(AckOne(x, k), rest);
      }
    case _ =>
  }

  lemma EnterReacts(x: Endpoint)
    ensures Reacts(x, EnterTransfer(x)) && Reacts(x, Converted(x))
  {
    hide Tallied;
  }

  lemma ResendOnward(tx: Tx, delta: nat)
    ensures Onward(tx, Resend(tx, delta))
  {
    if Counted(tx) {
      RetainRefines(tx.resender.slots, R.Expiry(delta));
    }
  }

  // ---- Receiving ----

  lemma RegisterReacts(x: Endpoint, prov: Provider, packet: Bytes)
    ensures Reacts(x, Register(x, prov, packet).x)
  {
    hide Counted, Tallied, EnterTransfer, DecodeStr, Decode;
    EnterReacts(x.(state := if x.state.Registration? then x.state.(receivedLast := true) else x.state,
                   rx := HandledNow(x.rx, MANAGEMENT_LANE, packet)));
  }

  lemma HandleOneReacts(x: Endpoint, prov: Provider, lane: Lane, g: nat, packet: Bytes)
    ensures Reacts(x, HandleOne(x, prov, lane, g, packet).x)
  {
    hide Counted, Tallied, Converted, Register, AckLocally;
    AckLocallyReacts(x, packet);
    EnterReacts(AckLocally(x, packet).x);
    RegisterReacts(x, prov, packet);
  }

  /// Draining, one packet at a time.
  lemma DrainOne(w: O.Window, prov: Provider, lane: Lane, global: nat, x: Endpoint)
    ensures O.Drain(w, Handler(prov, lane, global), Res(x, Fine))
         == if w.start !in w.pending then O.Drained(w, Res(x, Fine), true)
            else if HandleOne(x, prov, lane, global, w.pending[w.start]).out.Fine? then
              O.Drain(w.Advance(), Handler(prov, lane, global),
                    Res(HandleOne(x, prov, lane, global, w.pending[w.start]).x, Fine))
            else
              O.Drained(w.Drop(), HandleOne(x, prov, lane, global, w.pending[w.start]), false)
  {
    hide HandleOne;
    if w.start in w.pending {
      O.Smaller(w);
      var r := HandleOne(x, prov, lane, global, w.pending[w.start]);
      assert Handler(prov, lane, global)(Res(x, Fine), w.pending[w.start]) == (r, r.out.Fine?);
      assert r.out.Fine? ==> r == Res(r.x, Fine);
    }
  }

  lemma {:induction false} DrainReacts(w: O.Window, prov: Provider, lane: Lane, g: nat, r: Res)
    ensures Reacts(r.x, O.Drain(w, Handler(prov, lane, g), r).state.x)
    decreases |w.pending|
  {
    hide Counted, Tallied, HandleOne;
    if w.start in w.pending {
      var r' := HandleOne(r.x, prov, lane, g, w.pending[w.start]);
      HandleOneReacts(r.x, prov, lane, g, w.pending[w.start]);
      O.Smaller(w);
      if r'.out.Fine? {
        DrainReacts(w.Advance(), prov, lane, g, r');
      }
    }
  }

  lemma DeliverReacts(x: Endpoint, prov: Provider, lane: Lane, g: nat, order: Option<nat>, payload: Bytes)
    ensures Reacts(x, Deliver(x, prov, lane, g, order, payload).x)
  {
    hide Counted, Tallied, HandleOne, Handler;
    HandleOneReacts(x, prov, lane, g, payload);
    if order.Some? && x.rx.orderers.Has(lane) && x.rx.orderers.At(lane).Some? {
      var w := x.rx.orderers.At(lane).value.Push(order.value, payload);
      if w.Some? {
        DrainReacts(w.value, prov, lane, g, Res(Taken(x, lane, order.value), Fine));
      }
    }
  }

  lemma AcceptReacts(x: Endpoint, key: Option<Key>)
    ensures Reacts(x, Accept(x, key).x)
  {
    hide Counted, Tallied, Flush;
    FlushOn(x.tx, x.ack, StageOf(x.state), x.local.ack);
    FlushOnward(x.tx, x.ack, StageOf(x.state), x.local.ack);
  }

  lemma ReceiveSegmentReacts(x: Endpoint, prov: Provider, lane: Lane, g: nat, ch: Channel, meta: SegmentMeta, h: Header,
        payload: Bytes)
    ensures Reacts(x, ReceiveSegment(x, prov, lane, g, ch, meta, h, payload).x)
  {
    hide Counted, Tallied, Accept, Deliver, J.Join, Rejoin;
    AcceptReacts(x, h.key);
    var a := Accept(x, h.key);
    if a.out.Fine? {
      var j := J.Join(a.x.rx.joiner, meta, payload);
      var y := a.x.(rx := a.x.rx.(joiner := j.joiner));
      if j.result.Complete? && j.result.parts != [] {
        var joined := Rejoin(ch.IsOrdered(), ch.IsReliable(), j.result.parts);
        if joined.Joined? {
          DeliverReacts(y, prov, lane, g, joined.order, joined.payload);
        }
      }
    }
  }

  lemma ReceiveWholeReacts(x: Endpoint, prov: Provider, lane: Lane, g: nat, h: Header, payload: Bytes)
    ensures Reacts(x, ReceiveWhole(x, prov, lane, g, h, payload).x)
  {
    hide Counted, Tallied, Accept, Deliver;
    AcceptReacts(x, h.key);
    DeliverReacts(Accept(x, h.key).x, prov, lane, g, h.order, payload);
  }

  lemma ReceiveBodyReacts(x: Endpoint, prov: Provider, lane: Lane, g: nat, ch: Channel, segmented: bool, body: Bytes)
    ensures Reacts(x, ReceiveBody(x, prov, lane, g, ch, segmented, body).x)
  {
    hide Counted, Tallied, ReceiveSegment, ReceiveWhole, DecodeSegment, ReadHeader;
    var s := DecodeSegment(body);
    if segmented && s.Got? {
      var h := ReadHeader(ch.IsOrdered(), ch.IsReliable(), s.rest);
      if h.Got? {
        ReceiveSegmentReacts(x, prov, lane, g, ch, s.value, h.value, h.rest);
      }
    }
    var h := ReadHeader(ch.IsOrdered(), ch.IsReliable(), body);
    if !segmented && h.Got? {
      ReceiveWholeReacts(x, prov, lane, g, h.value, h.rest);
    }
  }

  lemma ReceiveReacts(x: Endpoint, prov: Provider, datagram: Bytes)
    ensures Reacts(x, Receive(x, prov, datagram).x)
  {
    hide Counted, Tallied, ReceiveBody, DecodePrimary, EnterTransfer;
    EnterReacts(x);
    var d := DecodePrimary(datagram);
    if d.Got? {
      var y := Speculate(x, d.value.chan);
      var stage := StageOf(y.state);
      var g := y.rx.notLocal.GlobalId(stage, d.value.chan);
      if g.Some? {
        var ch := ChannelOf(stage, d.value.chan, g.value, prov);
        if ch.Some? {
          ReceiveBodyReacts(y, prov, Lane(stage, d.value.chan), g.value, ch.value, d.value.segmented, d.rest);
        }
      }
    }
  }

  // ---- The clock, the application, opening ----

  lemma TickReacts(x: Endpoint, delta: nat)
    ensures Reacts(x, Tick(x, delta).x)
  {
    hide Counted, Tallied, Flush;
    ResendOnward(x.tx, delta);
    assert Resend(x.tx, delta).submitted == x.tx.submitted;
    FlushOn(Resend(x.tx, delta), x.ack, StageOf(x.state), x.local.ack);
    FlushOnward(Resend(x.tx, delta), x.ack, StageOf(x.state), x.local.ack);
  }

  lemma AppSendForward(x: Endpoint, prov: Provider, global: nat, payload: Bytes)
    ensures Forward(x, AppSend(x, prov, global, payload).x)
  {
    hide Counted, Tallied, SendPacket;
    var stage := StageOf(x.state);
    var local := x.local.LocalId(stage, global);
    if local.Some? {
      var ch := ChannelOf(stage, local.value, global, prov);
      if ch.Some? {
        SendPacketOnward(x.tx, ch.value, Lane(stage, local.value), payload);
      }
    }
  }

  lemma CounterOnward(tx: Tx, i: nat)
    ensures Onward(tx, tx.(orders := tx.orders.Set(i, 0, 0)))
  {
    hide SlotsCounted;
    var t := tx.(orders := tx.orders.Set(i, 0, 0));
    if Counted(tx) {
      forall lane: Lane | t.orders.Has(lane)
        ensures t.orders.At(lane) <= |Lookup(t.submitted, lane)|
      {
        if tx.orders.Has(lane) {
          assert tx.orders.At(lane) <= |Lookup(tx.submitted, lane)|;
        }
      }
    }
  }

  lemma AnnounceOneOnward(x: Endpoint, e: Entry, i: nat)
    ensures Onward(x.tx, AnnounceOne(x, e, i).x.tx)
  {
    hide Counted, Tallied, SendPacket;
    var payload := RegistrationPayload(e.name, i);
    SendPacketOnward(x.tx, MANAGEMENT_CHANNEL, MANAGEMENT_LANE, payload);
    CounterOnward(SendPacket(x.tx, MANAGEMENT_CHANNEL, MANAGEMENT_LANE, payload).tx, i);
  }

  lemma {:induction false} AnnounceFromOnward(x: Endpoint, listing: seq<Entry>, i: nat)
    requires i <= |listing|
    ensures Onward(x.tx, AnnounceFrom(x, listing, i).x.tx)
    decreases |listing| - i
  {
    hide Counted, Tallied, AnnounceOne;
    if i < |listing| {
      AnnounceOneOnward(x, listing[i], i);
      var r := AnnounceOne(x, listing[i], i);
      if r.out.Fine? {
        AnnounceFromOnward(r.x, listing, i + 1);
      }
    }
  }

  lemma AnnounceEndOnward(x: Endpoint)
    ensures Onward(x.tx, AnnounceEnd(x).x.tx)
  {
    hide SendPacket, SlotsCounted, OrdersCounted;
    SendPacketOnward(x.tx, MANAGEMENT_CHANNEL, MANAGEMENT_LANE, FINAL_PAYLOAD);
  }

  lemma InitializeOnward(x: Endpoint, prov: Provider, listing: seq<Entry>)
    ensures Onward(x.tx, Initialize(x, prov, listing).x.tx)
  {
    var y := WithListing(x, prov, listing);
    assert Onward(x.tx, y.tx);
    hide Counted, Tallied, AnnounceFrom, AnnounceEnd;
    AnnounceFromOnward(y, listing, 0);
    AnnounceEndOnward(AnnounceFrom(y, listing, 0).x);
  }

  lemma NewCounted()
    ensures Counted(NewEndpoint().tx) && Tallied(NewEndpoint().tx.sent, NewEndpoint().tx.submitted)
  {
  }
}
