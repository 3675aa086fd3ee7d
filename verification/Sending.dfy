/** What every sending operation keeps: an endpoint's packets, keys, orders and datagrams agree. */
module Sending {
  import opened Base
  import opened SlotKeys
  import opened SlotMaps
  import opened Framing
  import opened Channels
  import opened Endpoints
  import R = Resend

  /// The channel behind a lane of the sender's own numbering.
  ghost function LaneChannel(prov: Provider, local: Ids, lane: Lane): Option<Channel> {
    match lane.stage
    case Reg =>
      if lane == ACK_LANE then Some(ACK_CHANNEL) else if lane == MANAGEMENT_LANE then Some(MANAGEMENT_CHANNEL) else None
    case Tra =>
      if lane.chan < |local.localToGlobal| then prov.ById(local.localToGlobal[lane.chan]) else None
  }

  ghost predicate IsAckLane(local: Ids, lane: Lane) {
    lane == ACK_LANE || (lane.stage.Tra? && local.ack != NULL_ID && lane.chan == local.ack)
  }

  /// A list of keys of accepted packets.
  ghost predicate AckPayload(payload: Bytes, acc: set<Key>) {
    exists ks :: payload == EncodeKeys(ks) && KeysIn(ks, acc)
  }

  ghost predicate KeysIn(ks: seq<Key>, acc: set<Key>) {
    forall k :: k in ks ==> Fits(k) && k in acc
  }

  /// A segment belongs to a recorded message of its lane and carries its share of it.
  ghost predicate SegmentMatches(tx: Tx, p: Packet)
    requires p.seg.Some?
  {
    var m := p.seg.value;
    && m.key < |tx.messages|
    && tx.messages[m.key].lane == p.lane
    && |tx.messages[m.key].payload| > MAX_NON_SEGMENTED_PAYLOAD
    && tx.messages[m.key].payload in Lookup(tx.submitted, p.lane)
    && var parts := Chunks(tx.messages[m.key].payload);
    && m.count == |parts| && m.segment < |parts| && p.payload == parts[m.segment]
  }

  /// All that holds of a packet on the wire except for its key.
  ghost predicate BareOk(prov: Provider, local: Ids, tx: Tx, acc: set<Key>, p: Packet) {
    && PacketFits(p)
    && LaneChannel(prov, local, p.lane).Some?
    && (p.order.Some? <==> LaneChannel(prov, local, p.lane).value.IsOrdered())
    && (p.lane.stage.Reg? ==> p.seg.None?)
    && (IsAckLane(local, p.lane) ==> p.seg.None? && AckPayload(p.payload, acc))
    && (p.seg.None? ==> p.payload in Lookup(tx.submitted, p.lane))
    && (p.order.Some? ==> p.order.value < |Lookup(tx.submitted, p.lane)|)
    && (p.order.Some? && p.seg.None? ==> p.payload == Lookup(tx.submitted, p.lane)[p.order.value])
    && (p.seg.Some? ==> SegmentMatches(tx, p))
  }

  ghost predicate PacketOk(prov: Provider, local: Ids, tx: Tx, acc: set<Key>, p: Packet) {
    BareOk(prov, local, tx, acc, p) && (p.key.Some? <==> LaneChannel(prov, local, p.lane).value.IsReliable())
  }

  /// The datagram is a packet of the list.
  ghost predicate OnWire(sent: seq<Packet>, datagram: Bytes) {
    exists p :: p in sent && Frame(p) == datagram
  }

  /// The datagram is the packet of the list with this key.
  ghost predicate Stored(sent: seq<Packet>, k: Key, datagram: Bytes) {
    exists p :: p in sent && p.key == Some(k) && Frame(p) == datagram
  }

  ghost predicate KeysDistinct(sent: seq<Packet>) {
    forall i, j :: 0 <= i < j < |sent| && sent[i].key.Some? ==> sent[i].key != sent[j].key
  }

  /// Unsegmented packets with the same order on the same lane.
  ghost predicate SameTurn(p: Packet, q: Packet) {
    p.lane == q.lane && p.order.Some? && p.order == q.order && p.seg.None? && q.seg.None?
  }

  ghost predicate OrdersDistinct(sent: seq<Packet>) {
    forall i, j :: 0 <= i < j < |sent| ==> !SameTurn(sent[i], sent[j])
  }

  /// Every key on the wire was issued by these slots, and they hold packets from the wire.
  ghost predicate SlotsOk(s: Slots<R.Buffered>, sent: seq<Packet>) {
    && s.Valid()
    && (forall p :: p in sent && p.key.Some? ==> s.Within(p.key.value))
    && (forall i :: 0 <= i < |s.values| && s.values[i].Some? ==>
          Stored(sent, Key(i, s.generations[i]), s.values[i].value.payload))
  }

  /// The order counter of an ordered lane counts the payloads submitted on it.
  ghost predicate CountersOk(prov: Provider, local: Ids, orders: PerChannel<nat>, submitted: map<Lane, seq<Bytes>>) {
    forall lane {:trigger Lookup(submitted, lane)} ::
      LaneChannel(prov, local, lane).Some? && LaneChannel(prov, local, lane).value.IsOrdered() ==>
        if orders.Has(lane) then orders.At(lane) == |Lookup(submitted, lane)| < U32 else Lookup(submitted, lane) == []
  }

  ghost predicate TxInv(prov: Provider, local: Ids, tx: Tx, acc: set<Key>) {
    && (forall p :: p in tx.sent ==> PacketOk(prov, local, tx, acc, p))
    && KeysDistinct(tx.sent) && OrdersDistinct(tx.sent)
    && SlotsOk(tx.resender.slots, tx.sent)
    && (forall d :: d in tx.wire ==> OnWire(tx.sent, d))
    && CountersOk(prov, local, tx.orders, tx.submitted)
    && tx.segmentKeys == |tx.messages| < U32
  }

  /// Histories only grow.
  ghost predicate TxGrows(tx: Tx, tx': Tx) {
    && IsPrefix(tx.sent, tx'.sent)
    && IsPrefix(tx.messages, tx'.messages)
    && (forall lane :: IsPrefix(Lookup(tx.submitted, lane), Lookup(tx'.submitted, lane)))
    && IsPrefix(tx.wire, tx'.wire)
    && (tx.wrapped ==> tx'.wrapped)
    && |tx.orders.basic| <= |tx'.orders.basic|
  }

  /// Sending touches nothing else of the history.
  ghost predicate OnlySends(tx: Tx, tx': Tx) {
    && TxGrows(tx, tx') && tx'.released == tx.released && tx'.listing == tx.listing && tx'.finalKey == tx.finalKey
    && tx'.resender.capacity == tx.resender.capacity
  }

  lemma GrowsTrans(a: Tx, b: Tx, c: Tx)
    requires TxGrows(a, b) && TxGrows(b, c)
    ensures TxGrows(a, c)
  {
    forall lane
      ensures IsPrefix(Lookup(a.submitted, lane), Lookup(c.submitted, lane))
    {
      assert IsPrefix(Lookup(a.submitted, lane), Lookup(b.submitted, lane));
      assert IsPrefix(Lookup(b.submitted, lane), Lookup(c.submitted, lane));
    }
  }

  lemma PrefixIn<T>(a: seq<T>, b: seq<T>)
    requires IsPrefix(a, b)
    ensures forall x :: x in a ==> x in b
    ensures forall i :: 0 <= i < |a| ==> a[i] == b[i]
  {
  }

  lemma BareGrows(prov: Provider, local: Ids, tx: Tx, tx': Tx, acc: set<Key>, acc': set<Key>, p: Packet)
    requires BareOk(prov, local, tx, acc, p) && TxGrows(tx, tx') && acc <= acc'
    ensures BareOk(prov, local, tx', acc', p)
  {
    PrefixIn(Lookup(tx.submitted, p.lane), Lookup(tx'.submitted, p.lane));
    PrefixIn(tx.messages, tx'.messages);
    if IsAckLane(local, p.lane) {
      AckPayloadGrows(p.payload, acc, acc');
    }
  }

  lemma AckPayloadGrows(payload: Bytes, acc: set<Key>, acc': set<Key>)
    requires AckPayload(payload, acc) && acc <= acc'
    ensures AckPayload(payload, acc')
  {
    var ks :| payload == EncodeKeys(ks) && KeysIn(ks, acc);
    assert KeysIn(ks, acc');
  }

  lemma PacketsGrow(prov: Provider, local: Ids, tx: Tx, tx': Tx, acc: set<Key>, acc': set<Key>)
    requires forall p :: p in tx.sent ==> PacketOk(prov, local, tx, acc, p)
    requires TxGrows(tx, tx') && acc <= acc'
    ensures forall p :: p in tx.sent ==> PacketOk(prov, local, tx', acc', p)
  {
    forall p | p in tx.sent
      ensures PacketOk(prov, local, tx', acc', p)
    {
      BareGrows(prov, local, tx, tx', acc, acc', p);
    }
  }

  lemma OnWireGrows(sent: seq<Packet>, sent': seq<Packet>, d: Bytes)
    requires OnWire(sent, d) && IsPrefix(sent, sent')
    ensures OnWire(sent', d)
  {
    PrefixIn(sent, sent');
  }

  lemma StoredGrows(sent: seq<Packet>, sent': seq<Packet>, k: Key, d: Bytes)
    requires Stored(sent, k, d) && IsPrefix(sent, sent')
    ensures Stored(sent', k, d)
  {
    PrefixIn(sent, sent');
  }

  // ---- One packet ----

  lemma SendRealGrows(tx: Tx, ch: Channel, p: Packet)
    ensures OnlySends(tx, SendReal(tx, ch, p).tx)
    ensures SendReal(tx, ch, p).tx.submitted == tx.submitted && SendReal(tx, ch, p).tx.messages == tx.messages
    ensures SendReal(tx, ch, p).tx.orders == tx.orders && SendReal(tx, ch, p).tx.segmentKeys == tx.segmentKeys
  {
  }

  lemma KeyIsNew(tx: Tx)
    requires SlotsOk(tx.resender.slots, tx.sent) && !tx.resender.slots.Exhausted()
    requires tx.resender.slots.NextIndex() < U32
    ensures forall q :: q in tx.sent ==> q.key != Some(tx.resender.slots.NextKey())
    ensures Fits(tx.resender.slots.NextKey())
  {
    var s := tx.resender.slots;
    forall q | q in tx.sent
      ensures q.key != Some(s.NextKey())
    {
      assert q.key.Some? ==> s.Within(q.key.value);
    }
  }

  lemma StoredAfterPut(tx: Tx, p: Packet, b: R.Buffered)
    requires SlotsOk(tx.resender.slots, tx.sent) && !tx.resender.slots.Exhausted()
    requires tx.resender.slots.NextIndex() < U32
    requires p.key == Some(tx.resender.slots.NextKey()) && b.payload == Frame(p)
    ensures var t := tx.resender.slots.Put(b);
            forall j :: 0 <= j < |t.values| && t.values[j].Some? ==>
              Stored(tx.sent + [p], Key(j, t.generations[j]), t.values[j].value.payload)
  {
    var s := tx.resender.slots;
    var t, sent', i := s.Put(b), tx.sent + [p], s.NextIndex();
    hide Frame, Stored;
    forall j | 0 <= j < |t.values| && t.values[j].Some?
      ensures Stored(sent', Key(j, t.generations[j]), t.values[j].value.payload)
    {
      if j == i {
        NewStored(tx.sent, p);
        assert p.key == Some(Key(j, t.generations[j]));
      } else {
        assert t.values[j] == s.values[j] && t.generations[j] == s.generations[j];
        StoredGrows(tx.sent, sent', Key(j, s.generations[j]), s.values[j].value.payload);
      }
    }
  }

  lemma NewStored(sent: seq<Packet>, p: Packet)
    requires p.key.Some?
    ensures Stored(sent + [p], p.key.value, Frame(p))
  {
    assert p in sent + [p];
  }

  lemma WithinAfterPut<T>(s: Slots<T>, b: T, k: Key)
    requires s.Valid() && !s.Exhausted() && s.NextIndex() < U32 && (s.Within(k) || k == s.NextKey())
    ensures s.Put(b).Within(k)
  {
  }

  /// The resender's part: the new key is new on the wire, and the stored packet is the sent one.
  lemma StoreGood(tx: Tx, p: Packet, b: R.Buffered)
    requires SlotsOk(tx.resender.slots, tx.sent) && KeysDistinct(tx.sent)
    requires !tx.resender.slots.Exhausted() && tx.resender.slots.NextIndex() < U32
    requires p.key == Some(tx.resender.slots.NextKey()) && b.payload == Frame(p)
    ensures SlotsOk(tx.resender.slots.Put(b), tx.sent + [p])
    ensures KeysDistinct(tx.sent + [p]) && Fits(p.key.value)
  {
    PutValid(tx.resender.slots, b);
    KeyIsNew(tx);
    StoredAfterPut(tx, p, b);
    forall q | q in tx.sent + [p] && q.key.Some?
      ensures tx.resender.slots.Put(b).Within(q.key.value)
    {
      WithinAfterPut(tx.resender.slots, b, q.key.value);
    }
  }

  /// The key of a packet is no part of what else holds of it.
  lemma Keyed(prov: Provider, local: Ids, tx: Tx, acc: set<Key>, p: Packet, key: Option<Key>)
    requires BareOk(prov, local, tx, acc, p) && (key.Some? ==> Fits(key.value))
    requires key.Some? <==> LaneChannel(prov, local, p.lane).value.IsReliable()
    ensures PacketOk(prov, local, tx, acc, p.(key := key))
  {
    hide LaneChannel, IsAckLane, AckPayload, Chunks;
  }

  lemma SendRealGood(prov: Provider, local: Ids, tx: Tx, acc: set<Key>, ch: Channel, p: Packet)
    requires TxInv(prov, local, tx, acc) && LaneChannel(prov, local, p.lane) == Some(ch)
    requires p.key.None?
    requires p.lane.chan < NULL_ID && (p.seg.Some? ==> SegmentFits(p.seg.value)) ==> BareOk(prov, local, tx, acc, p)
    requires p.seg.Some? ==> 1 <= p.seg.value.count && p.seg.value.key < U32
    requires forall q :: q in tx.sent ==> !SameTurn(q, p)
    ensures var r := SendReal(tx, ch, p); r.tx.wrapped || TxInv(prov, local, r.tx, acc)
  {
    hide BareOk, PacketOk, SlotsOk, KeysDistinct, OrdersDistinct, CountersOk, LaneChannel, Frame;
    var r := SendReal(tx, ch, p);
    SendRealGrows(tx, ch, p);
    if r.out.Fine? && !r.tx.wrapped {
      var q := r.tx.sent[|tx.sent|];
      if ch.IsReliable() {
        StoreGood(tx, q, R.Buffered(Frame(q), ch.reliability.value.interval, ch.reliability.value.attempts, 0));
      } else {
        UnkeyedStays(tx, q);
      }
      assert r.tx.sent == tx.sent + [q] && r.tx.wire == tx.wire + [Frame(q)];
      Keyed(prov, local, tx, acc, p, q.key);
      SendAppends(prov, local, tx, r.tx, acc, q);
    }
  }

  lemma UnkeyedStays(tx: Tx, q: Packet)
    requires SlotsOk(tx.resender.slots, tx.sent) && KeysDistinct(tx.sent) && q.key.None?
    ensures SlotsOk(tx.resender.slots, tx.sent + [q]) && KeysDistinct(tx.sent + [q])
  {
    hide Frame, Stored;
    var s := tx.resender.slots;
    forall i | 0 <= i < |s.values| && s.values[i].Some?
      ensures Stored(tx.sent + [q], Key(i, s.generations[i]), s.values[i].value.payload)
    {
      StoredGrows(tx.sent, tx.sent + [q], Key(i, s.generations[i]), s.values[i].value.payload);
    }
  }

  lemma SendAppends(prov: Provider, local: Ids, tx: Tx, tx': Tx, acc: set<Key>, q: Packet)
    requires TxInv(prov, local, tx, acc) && TxGrows(tx, tx')
    requires tx'.sent == tx.sent + [q] && tx'.wire == tx.wire + [Frame(q)]
    requires tx'.submitted == tx.submitted && tx'.messages == tx.messages
    requires tx'.orders == tx.orders && tx'.segmentKeys == tx.segmentKeys
    requires PacketOk(prov, local, tx, acc, q) && KeysDistinct(tx'.sent) && SlotsOk(tx'.resender.slots, tx'.sent)
    requires forall q' :: q' in tx.sent ==> !SameTurn(q', q)
    ensures TxInv(prov, local, tx', acc)
  {
    PacketsGrow(prov, local, tx, tx', acc, acc);
    BareGrows(prov, local, tx, tx', acc, acc, q);
    forall d | d in tx'.wire
      ensures OnWire(tx'.sent, d)
    {
      if d in tx.wire {
        OnWireGrows(tx.sent, tx'.sent, d);
      } else {
        assert q in tx'.sent && Frame(q) == d;
      }
    }
  }

  // ---- One message ----

  lemma Submitted(tx: Tx, ch: Channel, lane: Lane, payload: Bytes)
    requires ch.IsOrdered() ==> tx.orders.Has(lane)
    ensures var t := Submit(tx, ch, lane, payload);
            && OnlySends(tx, t)
            && Lookup(t.submitted, lane) == Lookup(tx.submitted, lane) + [payload]
            && (forall l :: l != lane ==> Lookup(t.submitted, l) == Lookup(tx.submitted, l))
  {
  }

  lemma SubmitCounts(prov: Provider, local: Ids, tx: Tx, ch: Channel, lane: Lane, payload: Bytes)
    requires CountersOk(prov, local, tx.orders, tx.submitted) && LaneChannel(prov, local, lane) == Some(ch)
    requires ch.IsOrdered() ==> tx.orders.Has(lane)
    ensures var t := Submit(tx, ch, lane, payload); t.wrapped || CountersOk(prov, local, t.orders, t.submitted)
  {
    hide LaneChannel, OnlySends;
    Submitted(tx, ch, lane, payload);
  }

  lemma SubmitGood(prov: Provider, local: Ids, tx: Tx, acc: set<Key>, ch: Channel, lane: Lane, payload: Bytes)
    requires TxInv(prov, local, tx, acc) && LaneChannel(prov, local, lane) == Some(ch)
    requires ch.IsOrdered() ==> tx.orders.Has(lane)
    ensures var t := Submit(tx, ch, lane, payload); OnlySends(tx, t) && (t.wrapped || TxInv(prov, local, t, acc))
  {
    hide PacketOk, SlotsOk, OnWire, KeysDistinct, OrdersDistinct, CountersOk, LaneChannel, TxGrows;
    Submitted(tx, ch, lane, payload);
    SubmitCounts(prov, local, tx, ch, lane, payload);
    PacketsGrow(prov, local, tx, Submit(tx, ch, lane, payload), acc, acc);
  }

  lemma OpenGood(prov: Provider, local: Ids, tx: Tx, acc: set<Key>, lane: Lane, payload: Bytes)
    requires TxInv(prov, local, tx, acc)
    ensures var t := OpenMessage(tx, lane, payload); OnlySends(tx, t) && (t.wrapped || TxInv(prov, local, t, acc))
  {
    hide PacketOk, SlotsOk, OnWire, KeysDistinct, OrdersDistinct;
    var t := OpenMessage(tx, lane, payload);
    PacketsGrow(prov, local, tx, t, acc, acc);
  }

  lemma {:induction false} SegmentsGrow(tx: Tx, ch: Channel, lane: Lane, order: Option<nat>, key: nat,
        parts: seq<Bytes>, i: nat)
    requires i <= |parts|
    ensures OnlySends(tx, SendSegments(tx, ch, lane, order, key, parts, i).tx)
    decreases |parts| - i
  {
    if i < |parts| {
      var p := Packet(lane, Some(SegmentMeta(key, i, |parts|)), order, None, parts[i]);
      SendRealGrows(tx, ch, p);
      var r := SendReal(tx, ch, p);
      if r.out.Fine? {
        SegmentsGrow(r.tx, ch, lane, order, key, parts, i + 1);
        GrowsTrans(tx, r.tx, SendSegments(r.tx, ch, lane, order, key, parts, i + 1).tx);
      }
    }
  }

  lemma SegmentBare(prov: Provider, local: Ids, tx: Tx, acc: set<Key>, ch: Channel, lane: Lane, order: Option<nat>,
        key: nat, i: nat)
    requires LaneChannel(prov, local, lane) == Some(ch) && lane.stage.Tra? && !IsAckLane(local, lane)
    requires key < |tx.messages| < U32 && tx.messages[key].lane == lane
    requires |tx.messages[key].payload| > MAX_NON_SEGMENTED_PAYLOAD
    requires tx.messages[key].payload in Lookup(tx.submitted, lane) && i < |Chunks(tx.messages[key].payload)|
    requires order.Some? <==> ch.IsOrdered()
    requires order.Some? ==> order.value < U32 && order.value < |Lookup(tx.submitted, lane)|
    ensures var parts := Chunks(tx.messages[key].payload); var m := SegmentMeta(key, i, |parts|);
            var p := Packet(lane, Some(m), order, None, parts[i]);
            lane.chan < NULL_ID && SegmentFits(m) ==> BareOk(prov, local, tx, acc, p)
  {
    hide LaneChannel, IsAckLane;
  }

  lemma {:induction false} SegmentsGood(prov: Provider, local: Ids, tx: Tx, acc: set<Key>, ch: Channel, lane: Lane,
        order: Option<nat>, key: nat, parts: seq<Bytes>, i: nat)
    requires TxInv(prov, local, tx, acc) && LaneChannel(prov, local, lane) == Some(ch)
    requires lane.stage.Tra? && !IsAckLane(local, lane)
    requires key < |tx.messages| && tx.messages[key].lane == lane
    requires |tx.messages[key].payload| > MAX_NON_SEGMENTED_PAYLOAD
    requires tx.messages[key].payload in Lookup(tx.submitted, lane) && parts == Chunks(tx.messages[key].payload)
    requires order.Some? <==> ch.IsOrdered()
    requires order.Some? ==> order.value < U32 && order.value < |Lookup(tx.submitted, lane)|
    requires i <= |parts|
    ensures var r := SendSegments(tx, ch, lane, order, key, parts, i); r.tx.wrapped || TxInv(prov, local, r.tx, acc)
    decreases |parts| - i
  {
    hide LaneChannel, BareOk, PacketOk, SlotsOk, KeysDistinct, OrdersDistinct, CountersOk;
    if i < |parts| {
      var p := Packet(lane, Some(SegmentMeta(key, i, |parts|)), order, None, parts[i]);
      SendRealGrows(tx, ch, p);
      SegmentBare(prov, local, tx, acc, ch, lane, order, key, i);
      SendRealGood(prov, local, tx, acc, ch, p);
      var r := SendReal(tx, ch, p);
      if r.out.Fine? {
        SegmentsGrow(r.tx, ch, lane, order, key, parts, i + 1);
        if !r.tx.wrapped {
          SegmentsGood(prov, local, r.tx, acc, ch, lane, order, key, parts, i + 1);
        }
      }
    }
  }

  lemma SendPacketGrows(tx: Tx, ch: Channel, lane: Lane, payload: Bytes)
    ensures OnlySends(tx, SendPacket(tx, ch, lane, payload).tx)
  {
    if !(ch.IsOrdered() && !tx.orders.Has(lane)) {
      var t := Submit(tx, ch, lane, payload);
      assert TxGrows(tx, t);
      var order := if ch.IsOrdered() then Some(tx.orders.At(lane)) else None;
      if |payload| > MAX_NON_SEGMENTED_PAYLOAD {
        var u := OpenMessage(t, lane, payload);
        assert TxGrows(t, u);
        GrowsTrans(tx, t, u);
        SegmentsGrow(u, ch, lane, order, t.segmentKeys, Chunks(payload), 0);
        GrowsTrans(tx, u, SendPacket(tx, ch, lane, payload).tx);
      } else {
        SendRealGrows(t, ch, Packet(lane, None, order, None, payload));
        GrowsTrans(tx, t, SendPacket(tx, ch, lane, payload).tx);
      }
    }
  }

  /// A payload may be sent on a lane: short on the registration stage, a key list on the ack lane.
  ghost predicate Sendable(local: Ids, acc: set<Key>, lane: Lane, payload: Bytes) {
    && (lane.stage.Reg? ==> |payload| <= MAX_NON_SEGMENTED_PAYLOAD)
    && (IsAckLane(local, lane) ==> |payload| <= MAX_NON_SEGMENTED_PAYLOAD && AckPayload(payload, acc))
  }

  /// Sending any message of any size keeps the sender's invariant.
  lemma SendPacketGood(prov: Provider, local: Ids, tx: Tx, acc: set<Key>, ch: Channel, lane: Lane, payload: Bytes)
    requires TxInv(prov, local, tx, acc) && LaneChannel(prov, local, lane) == Some(ch)
    requires Sendable(local, acc, lane, payload)
    ensures var r := SendPacket(tx, ch, lane, payload);
            OnlySends(tx, r.tx) && (r.tx.wrapped || TxInv(prov, local, r.tx, acc))
  {
    SendPacketGrows(tx, ch, lane, payload);
    if ch.IsOrdered() && !tx.orders.Has(lane) {
      return;
    }
    SubmitGood(prov, local, tx, acc, ch, lane, payload);
    var t := Submit(tx, ch, lane, payload);
    var was := Lookup(tx.submitted, lane);
    assert Lookup(t.submitted, lane) == was + [payload];
    assert payload in Lookup(t.submitted, lane);
    var order := if ch.IsOrdered() then Some(tx.orders.At(lane)) else None;
    assert order.Some? ==> order.value == |was| < U32;
    if |payload| > MAX_NON_SEGMENTED_PAYLOAD {
      var u := OpenMessage(t, lane, payload);
      SegmentsGrow(u, ch, lane, order, t.segmentKeys, Chunks(payload), 0);
      if !u.wrapped {
        OpenGood(prov, local, t, acc, lane, payload);
        assert u.messages[t.segmentKeys] == Message(lane, payload);
        SegmentsGood(prov, local, u, acc, ch, lane, order, t.segmentKeys, Chunks(payload), 0);
      }
    } else {
      var p := Packet(lane, None, order, None, payload);
      SendRealGrows(t, ch, p);
      if !t.wrapped {
        forall q | q in t.sent
          ensures !SameTurn(q, p)
        {
          assert BareOk(prov, local, tx, acc, q);
        }
        SendRealGood(prov, local, t, acc, ch, p);
      }
    }
  }

  // ---- Where a sending operation leaves traces ----

  /// New packets and payloads are on this lane only.
  ghost predicate NewOn(tx: Tx, tx': Tx, lane: Lane) {
    && (forall p :: p in tx'.sent ==> p in tx.sent || p.lane == lane)
    && (forall l :: l != lane ==> Lookup(tx'.submitted, l) == Lookup(tx.submitted, l))
  }

  lemma SendRealOn(tx: Tx, ch: Channel, p: Packet)
    ensures NewOn(tx, SendReal(tx, ch, p).tx, p.lane)
  {
  }

  lemma {:induction false} SegmentsOn(tx: Tx, ch: Channel, lane: Lane, order: Option<nat>, key: nat, parts: seq<Bytes>,
        i: nat)
    requires i <= |parts|
    ensures NewOn(tx, SendSegments(tx, ch, lane, order, key, parts, i).tx, lane)
    ensures SendSegments(tx, ch, lane, order, key, parts, i).tx.submitted == tx.submitted
    decreases |parts| - i
  {
    if i < |parts| {
      var p := Packet(lane, Some(SegmentMeta(key, i, |parts|)), order, None, parts[i]);
      SendRealOn(tx, ch, p);
      var r := SendReal(tx, ch, p);
      SendRealGrows(tx, ch, p);
      if r.out.Fine? {
        SegmentsOn(r.tx, ch, lane, order, key, parts, i + 1);
      }
    }
  }

  lemma SendPacketOn(tx: Tx, ch: Channel, lane: Lane, payload: Bytes)
    ensures var tx' := SendPacket(tx, ch, lane, payload).tx;
            NewOn(tx, tx', lane)
            && if ch.IsOrdered() && !tx.orders.Has(lane) then tx' == tx
               else tx'.submitted == Log(tx.submitted, lane, payload)
  {
    if !(ch.IsOrdered() && !tx.orders.Has(lane)) {
      var t := Submit(tx, ch, lane, payload);
      var order := if ch.IsOrdered() then Some(tx.orders.At(lane)) else None;
      if |payload| > MAX_NON_SEGMENTED_PAYLOAD {
        SegmentsOn(OpenMessage(t, lane, payload), ch, lane, order, t.segmentKeys, Chunks(payload), 0);
      } else {
        var p := Packet(lane, None, order, None, payload);
        SendRealOn(t, ch, p);
        SendRealGrows(t, ch, p);
      }
    }
  }
}
