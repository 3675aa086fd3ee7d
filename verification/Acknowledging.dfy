/** Acknowledgements, resends and releases keep the sender's invariant; no acknowledged key is lost. */
module Acknowledging {
  import opened Base
  import opened SlotKeys
  import opened SlotMaps
  import opened Framing
  import opened Channels
  import opened Endpoints
  import opened Sending
  import R = Resend

  /// The buffered keys belong to accepted packets and fit in one packet.
  ghost predicate BufferOk(ack: Bytes, acc: set<Key>) {
    |ack| <= MAX_NON_SEGMENTED_PAYLOAD && AckPayload(ack, acc)
  }

  /// The lane used for acknowledgements leads to the acknowledgement channel.
  ghost predicate AckLaneReady(prov: Provider, local: Ids) {
    local.ack != NULL_ID && LaneChannel(prov, local, Lane(Tra, local.ack)) == Some(ACK_CHANNEL)
  }

  lemma NothingBuffered(acc: set<Key>)
    ensures BufferOk([], acc)
  {
    assert EncodeKeys([]) == [] && KeysIn([], acc);
  }

  lemma FlushGood(prov: Provider, local: Ids, tx: Tx, acc: set<Key>, ack: Bytes, stage: Stage)
    requires TxInv(prov, local, tx, acc) && BufferOk(ack, acc) && AckLaneReady(prov, local)
    ensures var r := Flush(tx, ack, stage, local.ack);
            OnlySends(tx, r.tx) && BufferOk(r.ack, acc) && (r.tx.wrapped || TxInv(prov, local, r.tx, acc))
  {
    SendPacketGood(prov, local, tx, acc, ACK_CHANNEL, AckLaneOf(stage, local.ack), ack);
    NothingBuffered(acc);
  }

  lemma BufferKey(ack: Bytes, acc: set<Key>, k: Key)
    requires AckPayload(ack, acc) && Fits(k) && k in acc
    ensures AckPayload(ack + EncodeKey(k), acc) && AckPayload(EncodeKey(k), acc)
  {
    var ks :| ack == EncodeKeys(ks) && KeysIn(ks, acc);
    EncodeKeysSnoc(ks, k);
    assert KeysIn(ks + [k], acc);
    EncodeKeysSnoc([], k);
    assert [] + [k] == [k];
    assert KeysIn([k], acc);
  }

  lemma AcknowledgeGood(prov: Provider, local: Ids, tx: Tx, acc: set<Key>, ack: Bytes, k: Key, stage: Stage)
    requires TxInv(prov, local, tx, acc) && BufferOk(ack, acc) && AckLaneReady(prov, local) && Fits(k)
    ensures var r := Acknowledge(tx, ack, k, stage, local.ack);
            var acc' := if r.out.Fine? then acc + {k} else acc;
            OnlySends(tx, r.tx) && BufferOk(r.ack, acc') && (r.tx.wrapped || TxInv(prov, local, r.tx, acc'))
  {
    hide TxInv, Flush, AckPayload, AckLaneReady;
    var acc' := acc + {k};
    FlushGood(prov, local, tx, acc, ack, stage);
    AckPayloadGrows(ack, acc, acc');
    BufferKey(ack, acc', k);
    KeyLength(k);
    var r := Acknowledge(tx, ack, k, stage, local.ack);
    if r.out.Fine? && !r.tx.wrapped {
      AcceptedGrows(prov, local, r.tx, acc, acc');
    }
  }

  lemma FlushOn(tx: Tx, ack: Bytes, stage: Stage, ackId: nat)
    ensures NewOn(tx, Flush(tx, ack, stage, ackId).tx, AckLaneOf(stage, ackId))
  {
    hide SendPacket, NewOn;
    SendPacketOn(tx, ACK_CHANNEL, AckLaneOf(stage, ackId), ack);
  }

  lemma AcknowledgeOn(tx: Tx, ack: Bytes, k: Key, stage: Stage, ackId: nat)
    ensures NewOn(tx, Acknowledge(tx, ack, k, stage, ackId).tx, AckLaneOf(stage, ackId))
  {
    hide Flush;
    FlushOn(tx, ack, stage, ackId);
  }

  // ---- Resending, releasing, clearing ----

  lemma ResentOnWire(s: Slots<R.Buffered>, sent: seq<Packet>, delta: nat, d: Bytes)
    requires SlotsOk(s, sent) && d in Logged(s.values, R.Expiry(delta))
    ensures OnWire(sent, d)
  {
    hide Frame, Logged;
    LoggedExactly(s.values, R.Expiry(delta), d);
    var i :| Emits(s.values, R.Expiry(delta), i, d);
    assert Stored(sent, Key(i, s.generations[i]), d);
  }

  lemma UpdatedSlots(s: Slots<R.Buffered>, sent: seq<Packet>, delta: nat)
    requires SlotsOk(s, sent)
    ensures SlotsOk(s.RetainIf(R.Expiry(delta)), sent)
  {
    hide Stored, Logged;
    var t := s.RetainIf(R.Expiry(delta));
    RetainRefines(s, R.Expiry(delta));
    forall i | 0 <= i < |t.values| && t.values[i].Some?
      ensures Stored(sent, Key(i, t.generations[i]), t.values[i].value.payload)
    {
      assert s.values[i].Some? && t.values[i] == R.Expire(delta, s.values[i].value).kept;
    }
  }

  /// A resend repeats a datagram that was on the wire already.
  lemma ResendGood(prov: Provider, local: Ids, tx: Tx, acc: set<Key>, delta: nat)
    requires TxInv(prov, local, tx, acc)
    ensures OnlySends(tx, Resend(tx, delta)) && TxInv(prov, local, Resend(tx, delta), acc)
    ensures Resend(tx, delta).sent == tx.sent
  {
    hide SlotsOk, OnWire, Logged, PacketOk;
    var tx' := Resend(tx, delta);
    UpdatedSlots(tx.resender.slots, tx.sent, delta);
    forall d | d in tx'.wire
      ensures OnWire(tx'.sent, d)
    {
      if d !in tx.wire {
        ResentOnWire(tx.resender.slots, tx.sent, delta, d);
      }
    }
    PacketsGrow(prov, local, tx, tx', acc, acc);
  }

  ghost predicate SameHistory(tx: Tx, tx': Tx) {
    && tx'.sent == tx.sent && tx'.submitted == tx.submitted && tx'.messages == tx.messages && tx'.wire == tx.wire
    && tx'.orders == tx.orders && tx'.segmentKeys == tx.segmentKeys && tx'.wrapped == tx.wrapped
  }

  /// Packets that leave the resender leave the rest of the invariant alone.
  lemma FewerStored(prov: Provider, local: Ids, tx: Tx, tx': Tx, acc: set<Key>)
    requires TxInv(prov, local, tx, acc) && SameHistory(tx, tx')
    requires tx'.resender.slots.Valid() && tx'.resender.slots.generations == tx.resender.slots.generations
    requires |tx'.resender.slots.values| <= |tx.resender.slots.values|
    requires forall i :: 0 <= i < |tx'.resender.slots.values| && tx'.resender.slots.values[i].Some? ==>
               tx'.resender.slots.values[i] == tx.resender.slots.values[i]
    ensures TxInv(prov, local, tx', acc)
  {
    PacketsGrow(prov, local, tx, tx', acc, acc);
    var s, t := tx.resender.slots, tx'.resender.slots;
    forall p | p in tx'.sent && p.key.Some?
      ensures t.Within(p.key.value)
    {
      assert s.Within(p.key.value);
    }
  }

  lemma ReleaseGood(prov: Provider, local: Ids, tx: Tx, acc: set<Key>, k: Key, released: seq<Key>)
    requires TxInv(prov, local, tx, acc)
    ensures TxInv(prov, local, tx.(resender := tx.resender.Remove(k), released := released), acc)
  {
    RemoveValid(tx.resender.slots, k);
    FewerStored(prov, local, tx, tx.(resender := tx.resender.Remove(k), released := released), acc);
  }

  lemma ClearGood(prov: Provider, local: Ids, tx: Tx, acc: set<Key>)
    requires TxInv(prov, local, tx, acc)
    ensures TxInv(prov, local, tx.(resender := tx.resender.(slots := tx.resender.slots.Clear())), acc)
  {
    FewerStored(prov, local, tx, tx.(resender := tx.resender.(slots := tx.resender.slots.Clear())), acc);
  }

  lemma AcceptedGrows(prov: Provider, local: Ids, tx: Tx, acc: set<Key>, acc': set<Key>)
    requires TxInv(prov, local, tx, acc) && acc <= acc'
    ensures TxInv(prov, local, tx, acc')
  {
    PacketsGrow(prov, local, tx, tx, acc, acc');
  }

  // ---- Keys in packets and in the buffer ----

  /// The keys in the packets sent on a lane, as a receiver decodes them.
  function KeysOn(sent: seq<Packet>, lane: Lane): seq<Key> {
    if sent == [] then []
    else
      var p := sent[|sent| - 1];
      KeysOn(sent[..|sent| - 1], lane) + if p.lane == lane then DecodeKeys(p.payload) else []
  }

  ghost predicate AllFit(ks: seq<Key>) {
    forall k :: k in ks ==> Fits(k)
  }

  ghost predicate KeyList(s: Bytes) {
    exists ks :: s == EncodeKeys(ks) && AllFit(ks)
  }

  lemma KeysOnSnoc(sent: seq<Packet>, p: Packet, lane: Lane)
    ensures KeysOn(sent + [p], lane) == KeysOn(sent, lane) + if p.lane == lane then DecodeKeys(p.payload) else []
  {
    assert (sent + [p])[..|sent|] == sent;
  }

  /// What was sent later on other lanes makes no difference.
  lemma {:induction false} KeysOnElsewhere(sent: seq<Packet>, sent': seq<Packet>, lane: Lane)
    requires IsPrefix(sent, sent') && forall i :: |sent| <= i < |sent'| ==> sent'[i].lane != lane
    ensures KeysOn(sent', lane) == KeysOn(sent, lane)
    decreases |sent'|
  {
    if |sent'| == |sent| {
      assert sent' == sent;
    } else {
      KeysOnElsewhere(sent, sent'[..|sent'| - 1], lane);
    }
  }

  lemma DecodeSnoc(ack: Bytes, k: Key)
    requires Fits(k) && KeyList(ack)
    ensures DecodeKeys(ack + EncodeKey(k)) == DecodeKeys(ack) + [k]
    ensures KeyList(ack + EncodeKey(k))
  {
    var ks :| ack == EncodeKeys(ks) && AllFit(ks);
    EncodeKeysSnoc(ks, k);
    KeysRoundTrip(ks);
    assert AllFit(ks + [k]);
    KeysRoundTrip(ks + [k]);
  }

  lemma EmptyList()
    ensures KeyList([]) && DecodeKeys([]) == []
  {
    assert EncodeKeys([]) == [] && AllFit([]);
  }

  /// A flush sends the buffer in one packet or sends nothing.
  lemma FlushSends(tx: Tx, ack: Bytes, stage: Stage, ackId: nat)
    requires |ack| <= MAX_NON_SEGMENTED_PAYLOAD
    ensures var r := Flush(tx, ack, stage, ackId);
            && (!r.out.Fine? ==> r.tx.sent == tx.sent && r.ack == ack)
            && (r.out.Fine? ==> r.ack == [])
            && (r.out.Fine? ==>
                  exists p :: r.tx.sent == tx.sent + [p] && r.tx.wire == tx.wire + [Frame(p)]
                              && p.payload == ack && p.lane == AckLaneOf(stage, ackId) && p.seg.None?)
  {
    hide Frame;
    var r := Flush(tx, ack, stage, ackId);
    if r.out.Fine? {
      var p := r.tx.sent[|tx.sent|];
      assert r.tx.sent == tx.sent + [p] && r.tx.wire == tx.wire + [Frame(p)];
    }
  }
}
