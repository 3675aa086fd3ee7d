/** How often a packet goes out: once, and then at most as often as its channel allows resends. */
module Budgets {
  import opened Base
  import opened SlotKeys
  import opened SlotMaps
  import opened Framing
  import opened Channels
  import opened Endpoints
  import opened Sending
  import opened Acknowledging
  import opened Counting
  import opened Invariants
  import opened Receiving
  import opened Delivering
  import opened Arriving
  import opened Opening
  import opened Systems
  import opened Guarantees
  import opened Protocol
  import opened Panics
  import opened Settling
  import opened Conserving
  import R = Resend

  // ---- A datagram belongs to one packet ----

  /// The lanes that lead somewhere have different channel ids.
  lemma LaneByChan(prov: Provider, local: Ids, l: Lane, m: Lane)
    requires |local.localToGlobal| < MANAGEMENT_ID_REGISTRATION && l.chan == m.chan
    requires LaneChannel(prov, local, l).Some? && LaneChannel(prov, local, m).Some?
    ensures l == m
  {
  }

  lemma SameFrame(prov: Provider, local: Ids, tx: Tx, acc: set<Key>, p: Packet, q: Packet)
    requires |local.localToGlobal| < MANAGEMENT_ID_REGISTRATION
    requires PacketOk(prov, local, tx, acc, p) && PacketOk(prov, local, tx, acc, q) && Frame(p) == Frame(q)
    ensures p.key == q.key
  {
    hide Frame, DecodePrimary, DecodeSegment, ReadHeader, AckPayload, SegmentMatches, LaneChannel, IsAckLane;
    FrameRoundTrip(p);
    FrameRoundTrip(q);
    LaneByChan(prov, local, p.lane, q.lane);
  }

  // ---- Counting on the wire ----

  function Times(wire: seq<Bytes>, d: Bytes): nat {
    multiset(wire)[d]
  }

  lemma TimesAppend(wire: seq<Bytes>, more: seq<Bytes>, d: Bytes)
    ensures Times(wire + more, d) == Times(wire, d) + Times(more, d)
  {
    assert multiset(wire + more) == multiset(wire) + multiset(more);
  }

  lemma TimesOne(d: Bytes, e: Bytes)
    ensures Times([d], e) == if d == e then 1 else 0
  {
  }

  lemma NeverTimes(wire: seq<Bytes>, d: Bytes)
    requires d !in wire
    ensures Times(wire, d) == 0
  {
  }

  /// The resends that a packet has left.
  function Left(s: Slots<R.Buffered>, k: Key): nat {
    match s.Get(k)
    case None => 0
    case Some(b) => b.attempts
  }

  /// The resends that the packet's channel allows.
  ghost function Allowed(prov: Provider, local: Ids, p: Packet): nat {
    match LaneChannel(prov, local, p.lane)
    case None => 0
    case Some(ch) => if ch.reliability.Some? then ch.reliability.value.attempts else 0
  }

  ghost predicate Budgeted(prov: Provider, local: Ids, tx: Tx, p: Packet) {
    p.key.Some? ==>
      Times(tx.wire, Frame(p)) + Left(tx.resender.slots, p.key.value) <= 1 + Allowed(prov, local, p)
  }

  ghost predicate WireOk(prov: Provider, local: Ids, tx: Tx) {
    forall p :: p in tx.sent ==> Budgeted(prov, local, tx, p)
  }

  // ---- A new packet ----

  lemma LeftAfterPut(s: Slots<R.Buffered>, b: R.Buffered, k: Key)
    requires s.Valid() && s.NextIndex() < U32
    ensures Left(s.Put(b), s.NextKey()) == b.attempts
    ensures k != s.NextKey() ==> Left(s.Put(b), k) <= Left(s, k)
  {
    PutValid(s, b);
  }

  lemma NotYet(prov: Provider, local: Ids, tx: Tx, t: Tx, acc: set<Key>, q: Packet)
    requires |local.localToGlobal| < MANAGEMENT_ID_REGISTRATION && TxInv(prov, local, tx, acc)
    requires TxInv(prov, local, t, acc)
    requires t.sent == tx.sent + [q] && q.key.Some?
    ensures Times(tx.wire, Frame(q)) == 0
    ensures forall p :: p in tx.sent && p.key.Some? ==> Frame(p) != Frame(q) && p.key != q.key
  {
    hide PacketOk, SlotsOk, OrdersDistinct, CountersOk, Frame;
    forall p | p in tx.sent
      ensures Frame(p) != Frame(q) && p.key != q.key
    {
      assert p in t.sent && q in t.sent;
      var i :| 0 <= i < |tx.sent| && tx.sent[i] == p;
      assert t.sent[i] == p && t.sent[|tx.sent|] == q;
      if Frame(p) == Frame(q) {
        SameFrame(prov, local, t, acc, p, q);
      }
    }
    forall d | d in tx.wire
      ensures d != Frame(q)
    {
      assert OnWire(tx.sent, d);
    }
    NeverTimes(tx.wire, Frame(q));
  }

  lemma StoredWire(prov: Provider, local: Ids, tx: Tx, t: Tx, acc: set<Key>, ch: Channel, q: Packet, b: R.Buffered)
    requires |local.localToGlobal| < MANAGEMENT_ID_REGISTRATION && TxInv(prov, local, tx, acc)
    requires TxInv(prov, local, t, acc)
    requires WireOk(prov, local, tx) && LaneChannel(prov, local, q.lane) == Some(ch) && ch.IsReliable()
    requires tx.resender.slots.NextIndex() < U32 && q.key == Some(tx.resender.slots.NextKey())
    requires b.attempts == ch.reliability.value.attempts
    requires t.sent == tx.sent + [q] && t.wire == tx.wire + [Frame(q)] && t.resender.slots == tx.resender.slots.Put(b)
    ensures WireOk(prov, local, t)
  {
    SlotsValid(prov, local, tx, acc);
    hide TxInv, PacketOk, Frame, LaneChannel, Left, Times, Slots.Put, Slots.NextKey, Slots.NextIndex, Slots.Valid;
    NotYet(prov, local, tx, t, acc, q);
    forall p | p in t.sent
      ensures Budgeted(prov, local, t, p)
    {
      if p.key.Some? {
        LeftAfterPut(tx.resender.slots, b, p.key.value);
        TimesAppend(tx.wire, [Frame(q)], Frame(p));
        TimesOne(Frame(q), Frame(p));
        if p != q {
          assert Budgeted(prov, local, tx, p);
        }
      }
    }
  }

  lemma SlotsValid(prov: Provider, local: Ids, tx: Tx, acc: set<Key>)
    requires TxInv(prov, local, tx, acc)
    ensures tx.resender.slots.Valid()
  {
    hide PacketOk, KeysDistinct, OrdersDistinct, OnWire, CountersOk, Stored, Slots.Valid;
  }

  lemma UnkeyedWire(prov: Provider, local: Ids, tx: Tx, t: Tx, acc: set<Key>, q: Packet)
    requires |local.localToGlobal| < MANAGEMENT_ID_REGISTRATION && TxInv(prov, local, tx, acc)
    requires TxInv(prov, local, t, acc)
    requires WireOk(prov, local, tx) && q.key.None?
    requires t.sent == tx.sent + [q] && t.wire == tx.wire + [Frame(q)] && t.resender == tx.resender
    ensures WireOk(prov, local, t)
  {
    hide PacketOk, SlotsOk, OrdersDistinct, KeysDistinct, CountersOk, OnWire, Frame, LaneChannel, Left, Times, Allowed;
    forall p | p in t.sent
      ensures Budgeted(prov, local, t, p)
    {
      if p.key.Some? {
        TimesAppend(tx.wire, [Frame(q)], Frame(p));
        TimesOne(Frame(q), Frame(p));
        if Frame(p) == Frame(q) {
          SameFrame(prov, local, t, acc, p, q);
        }
        assert Budgeted(prov, local, tx, p);
      }
    }
  }

  lemma SendRealWire(prov: Provider, local: Ids, tx: Tx, acc: set<Key>, ch: Channel, p: Packet)
    requires |local.localToGlobal| < MANAGEMENT_ID_REGISTRATION && TxInv(prov, local, tx, acc)
    requires WireOk(prov, local, tx)
    requires LaneChannel(prov, local, p.lane) == Some(ch) && p.key.None?
    requires var r := SendReal(tx, ch, p); r.tx.wrapped || TxInv(prov, local, r.tx, acc)
    ensures var r := SendReal(tx, ch, p); r.tx.wrapped || WireOk(prov, local, r.tx)
  {
    hide TxInv, WireOk, Frame, LaneChannel, Slots.Put, Slots.NextKey, Slots.NextIndex, Slots.Exhausted;
    var r := SendReal(tx, ch, p);
    if r.out.Fine? && !r.tx.wrapped {
      if ch.IsReliable() {
        var q := p.(key := Some(tx.resender.slots.NextKey()));
        var b := R.Buffered(Frame(q), ch.reliability.value.interval, ch.reliability.value.attempts, 0);
        StoredWire(prov, local, tx, r.tx, acc, ch, q, b);
      } else {
        UnkeyedWire(prov, local, tx, r.tx, acc, p);
      }
    }
  }

  // ---- A message ----

  lemma {:induction false} SegmentsWire(prov: Provider, local: Ids, tx: Tx, acc: set<Key>, ch: Channel, lane: Lane,
        order: Option<nat>, key: nat, parts: seq<Bytes>, i: nat)
    requires |local.localToGlobal| < MANAGEMENT_ID_REGISTRATION && WireOk(prov, local, tx)
    requires TxInv(prov, local, tx, acc) && LaneChannel(prov, local, lane) == Some(ch)
    requires lane.stage.Tra? && !IsAckLane(local, lane)
    requires key < |tx.messages| && tx.messages[key].lane == lane
    requires |tx.messages[key].payload| > MAX_NON_SEGMENTED_PAYLOAD
    requires tx.messages[key].payload in Lookup(tx.submitted, lane) && parts == Chunks(tx.messages[key].payload)
    requires order.Some? <==> ch.IsOrdered()
    requires order.Some? ==> order.value < U32 && order.value < |Lookup(tx.submitted, lane)|
    requires i <= |parts|
    ensures var r := SendSegments(tx, ch, lane, order, key, parts, i); r.tx.wrapped || WireOk(prov, local, r.tx)
    decreases |parts| - i
  {
    hide LaneChannel, BareOk, PacketOk, SlotsOk, KeysDistinct, OrdersDistinct, CountersOk, WireOk;
    if i < |parts| {
      var p := Packet(lane, Some(SegmentMeta(key, i, |parts|)), order, None, parts[i]);
      SendRealGrows(tx, ch, p);
      SegmentBare(prov, local, tx, acc, ch, lane, order, key, i);
      SendRealGood(prov, local, tx, acc, ch, p);
      SendRealWire(prov, local, tx, acc, ch, p);
      var r := SendReal(tx, ch, p);
      if r.out.Fine? {
        SegmentsGrow(r.tx, ch, lane, order, key, parts, i + 1);
        if !r.tx.wrapped {
          SegmentsWire(prov, local, r.tx, acc, ch, lane, order, key, parts, i + 1);
        }
      }
    }
  }

  lemma SameWire(prov: Provider, local: Ids, tx: Tx, t: Tx)
    requires WireOk(prov, local, tx) && t.sent == tx.sent && t.wire == tx.wire && t.resender == tx.resender
    ensures WireOk(prov, local, t)
  {
    hide Left, Times, Allowed, Frame;
    forall p | p in t.sent
      ensures Budgeted(prov, local, t, p)
    {
      assert Budgeted(prov, local, tx, p);
    }
  }

  lemma TurnIsNew(prov: Provider, local: Ids, tx: Tx, acc: set<Key>, p: Packet)
    requires TxInv(prov, local, tx, acc)
    requires p.order.Some? ==> p.order.value == |Lookup(tx.submitted, p.lane)|
    ensures forall q :: q in tx.sent ==> !SameTurn(q, p)
  {
    hide SlotsOk, KeysDistinct, OrdersDistinct, CountersOk, OnWire;
    forall q | q in tx.sent
      ensures !SameTurn(q, p)
    {
      assert BareOk(prov, local, tx, acc, q);
    }
  }

  lemma CounterNow(prov: Provider, local: Ids, tx: Tx, acc: set<Key>, lane: Lane)
    requires TxInv(prov, local, tx, acc) && LaneChannel(prov, local, lane).Some? && tx.orders.Has(lane)
    requires LaneChannel(prov, local, lane).value.IsOrdered()
    ensures tx.orders.At(lane) == |Lookup(tx.submitted, lane)| < U32
  {
    hide PacketOk, SlotsOk, KeysDistinct, OrdersDistinct, OnWire, LaneChannel;
  }

  lemma SendWholeWire(prov: Provider, local: Ids, tx: Tx, acc: set<Key>, ch: Channel, lane: Lane, payload: Bytes)
    requires |local.localToGlobal| < MANAGEMENT_ID_REGISTRATION && WireOk(prov, local, tx)
    requires TxInv(prov, local, tx, acc) && LaneChannel(prov, local, lane) == Some(ch)
    requires Sendable(local, acc, lane, payload) && |payload| <= MAX_NON_SEGMENTED_PAYLOAD
    requires ch.IsOrdered() ==> tx.orders.Has(lane)
    ensures var r := SendPacket(tx, ch, lane, payload); r.tx.wrapped || WireOk(prov, local, r.tx)
  {
    hide TxInv, SendReal, Submit, WireOk, LaneChannel, BareOk;
    SubmitGood(prov, local, tx, acc, ch, lane, payload);
    Submitted(tx, ch, lane, payload);
    var t := Submit(tx, ch, lane, payload);
    SubmitWire(prov, local, tx, ch, lane, payload);
    var order := if ch.IsOrdered() then Some(tx.orders.At(lane)) else None;
    var p := Packet(lane, None, order, None, payload);
    if ch.IsOrdered() {
      CounterNow(prov, local, tx, acc, lane);
    }
    TurnIsNew(prov, local, tx, acc, p);
    if !t.wrapped {
      WholeBare(prov, local, tx, t, acc, p, ch);
      SendRealGood(prov, local, t, acc, ch, p);
      SendRealWire(prov, local, t, acc, ch, p);
    }
    SendRealGrows(t, ch, p);
  }

  lemma SubmitWire(prov: Provider, local: Ids, tx: Tx, ch: Channel, lane: Lane, payload: Bytes)
    requires WireOk(prov, local, tx) && (ch.IsOrdered() ==> tx.orders.Has(lane))
    ensures var t := Submit(tx, ch, lane, payload); WireOk(prov, local, t) && t.sent == tx.sent
  {
    SameWire(prov, local, tx, Submit(tx, ch, lane, payload));
  }

  lemma WholeBare(prov: Provider, local: Ids, tx: Tx, t: Tx, acc: set<Key>, p: Packet, ch: Channel)
    requires LaneChannel(prov, local, p.lane) == Some(ch) && Sendable(local, acc, p.lane, p.payload)
    requires |p.payload| <= MAX_NON_SEGMENTED_PAYLOAD && p.seg.None? && p.key.None?
    requires p.order.Some? <==> ch.IsOrdered()
    requires p.order.Some? ==> p.order.value == |Lookup(tx.submitted, p.lane)| < U32
    requires Lookup(t.submitted, p.lane) == Lookup(tx.submitted, p.lane) + [p.payload]
    ensures p.lane.chan < NULL_ID ==> BareOk(prov, local, t, acc, p)
  {
    hide LaneChannel;
    assert Lookup(t.submitted, p.lane)[|Lookup(tx.submitted, p.lane)|] == p.payload;
  }

  lemma SendLongWire(prov: Provider, local: Ids, tx: Tx, acc: set<Key>, ch: Channel, lane: Lane, payload: Bytes)
    requires |local.localToGlobal| < MANAGEMENT_ID_REGISTRATION && WireOk(prov, local, tx)
    requires TxInv(prov, local, tx, acc) && LaneChannel(prov, local, lane) == Some(ch)
    requires Sendable(local, acc, lane, payload) && |payload| > MAX_NON_SEGMENTED_PAYLOAD
    requires ch.IsOrdered() ==> tx.orders.Has(lane)
    ensures var r := SendPacket(tx, ch, lane, payload); r.tx.wrapped || WireOk(prov, local, r.tx)
  {
    hide TxInv, SendSegments, Submit, WireOk, LaneChannel;
    SubmitGood(prov, local, tx, acc, ch, lane, payload);
    Submitted(tx, ch, lane, payload);
    SubmitWire(prov, local, tx, ch, lane, payload);
    var t := Submit(tx, ch, lane, payload);
    var u := OpenMessage(t, lane, payload);
    var order := if ch.IsOrdered() then Some(tx.orders.At(lane)) else None;
    SameWire(prov, local, t, u);
    SegmentsGrow(u, ch, lane, order, t.segmentKeys, Chunks(payload), 0);
    if ch.IsOrdered() {
      CounterNow(prov, local, tx, acc, lane);
    }
    if !u.wrapped {
      MessagesCount(prov, local, t, acc);
      OpenGood(prov, local, t, acc, lane, payload);
      assert u.messages[t.segmentKeys] == Message(lane, payload);
      SegmentsWire(prov, local, u, acc, ch, lane, order, t.segmentKeys, Chunks(payload), 0);
    }
  }

  lemma MessagesCount(prov: Provider, local: Ids, tx: Tx, acc: set<Key>)
    requires TxInv(prov, local, tx, acc)
    ensures tx.segmentKeys == |tx.messages|
  {
    hide PacketOk, SlotsOk, KeysDistinct, OrdersDistinct, OnWire, CountersOk;
  }

  lemma SendPacketWire(prov: Provider, local: Ids, tx: Tx, acc: set<Key>, ch: Channel, lane: Lane, payload: Bytes)
    requires |local.localToGlobal| < MANAGEMENT_ID_REGISTRATION && WireOk(prov, local, tx)
    requires TxInv(prov, local, tx, acc) && LaneChannel(prov, local, lane) == Some(ch)
    requires Sendable(local, acc, lane, payload)
    ensures var r := SendPacket(tx, ch, lane, payload); r.tx.wrapped || WireOk(prov, local, r.tx)
  {
    hide TxInv, SendSegments, SendReal, WireOk, LaneChannel, Sendable;
    if !(ch.IsOrdered() && !tx.orders.Has(lane)) {
      if |payload| > MAX_NON_SEGMENTED_PAYLOAD {
        SendLongWire(prov, local, tx, acc, ch, lane, payload);
      } else {
        SendWholeWire(prov, local, tx, acc, ch, lane, payload);
      }
    }
  }

  // ---- Resending ----

  lemma {:induction false} LoggedTimes<T>(values: seq<Option<T>>, f: T -> Verdict<T>, d: Bytes, k: nat)
    requires forall i :: 0 <= i < |values| && i != k && values[i].Some? ==> d !in f(values[i].value).log
    ensures Times(Logged(values, f), d)
         == if k < |values| && values[k].Some? then Times(f(values[k].value).log, d) else 0
  {
    if values != [] {
      var n := |values| - 1;
      LoggedTimes(values[..n], f, d, k);
      TimesAppend(Logged(values[..n], f), if values[n].Some? then f(values[n].value).log else [], d);
    }
  }

  /// Only the packet itself is resent as its datagram.
  lemma OthersDiffer(prov: Provider, local: Ids, tx: Tx, acc: set<Key>, p: Packet, i: nat)
    requires |local.localToGlobal| < MANAGEMENT_ID_REGISTRATION && TxInv(prov, local, tx, acc) && p in tx.sent
    requires p.key.Some?
    requires i < |tx.resender.slots.values| && tx.resender.slots.values[i].Some?
    requires tx.resender.slots.values[i].value.payload == Frame(p)
    ensures p.key.value == Key(i, tx.resender.slots.generations[i])
  {
    hide PacketOk, KeysDistinct, OrdersDistinct, CountersOk, OnWire, Frame;
    var s := tx.resender.slots;
    assert Stored(tx.sent, Key(i, s.generations[i]), s.values[i].value.payload);
    var q :| q in tx.sent && q.key == Some(Key(i, s.generations[i])) && Frame(q) == s.values[i].value.payload;
    SameFrame(prov, local, tx, acc, p, q);
  }

  lemma ResentTimes(prov: Provider, local: Ids, tx: Tx, acc: set<Key>, p: Packet, delta: nat)
    requires |local.localToGlobal| < MANAGEMENT_ID_REGISTRATION && TxInv(prov, local, tx, acc) && p in tx.sent
    requires p.key.Some?
    ensures Times(tx.resender.Resent(delta), Frame(p)) + Left(tx.resender.slots.RetainIf(R.Expiry(delta)), p.key.value)
         <= Left(tx.resender.slots, p.key.value)
  {
    SlotsValid(prov, local, tx, acc);
    hide TxInv, Frame, Logged;
    var s, f, d, k := tx.resender.slots, R.Expiry(delta), Frame(p), p.key.value;
    forall i: nat | i < |s.values| && s.values[i].Some? && !(i == k.index && s.Get(k).Some?)
      ensures d !in f(s.values[i].value).log
    {
      if s.values[i].value.payload == d {
        OthersDiffer(prov, local, tx, acc, p, i);
      }
    }
    LoggedTimes(s.values, f, d, if s.Get(k).Some? then k.index else |s.values|);
    if s.Get(k).Some? {
      OneResend(delta, s.values[k.index].value, d);
    }
  }

  lemma OneResend(delta: nat, b: R.Buffered, d: Bytes)
    ensures var v := R.Expire(delta, b);
            Times(v.log, d) + (if v.kept.Some? then v.kept.value.attempts else 0) <= b.attempts
  {
    TimesOne(b.payload, d);
  }

  lemma ResendWire(prov: Provider, local: Ids, tx: Tx, acc: set<Key>, delta: nat)
    requires |local.localToGlobal| < MANAGEMENT_ID_REGISTRATION && TxInv(prov, local, tx, acc)
    requires WireOk(prov, local, tx)
    ensures WireOk(prov, local, Resend(tx, delta))
  {
    hide TxInv, Left, Times, Allowed, Frame, R.Resender.Resent, Slots.RetainIf;
    forall p | p in tx.sent
      ensures Budgeted(prov, local, Resend(tx, delta), p)
    {
      if p.key.Some? {
        ResentTimes(prov, local, tx, acc, p, delta);
        TimesAppend(tx.wire, tx.resender.Resent(delta), Frame(p));
        assert Budgeted(prov, local, tx, p);
      }
    }
  }

  /// Packets that leave the resender are not sent again.
  lemma FewerWire(prov: Provider, local: Ids, tx: Tx, t: Tx)
    requires WireOk(prov, local, tx) && t.sent == tx.sent && t.wire == tx.wire
    requires Fewer(tx.resender.slots, t.resender.slots)
    ensures WireOk(prov, local, t)
  {
    hide Times, Allowed, Frame;
    forall p | p in t.sent
      ensures Budgeted(prov, local, t, p)
    {
      assert Budgeted(prov, local, tx, p);
    }
  }

  // ---- One endpoint ----

  ghost predicate SpendsOk(prov: Provider, x: Endpoint) {
    WireOk(prov, x.local, x.tx)
  }

  lemma TableShort(prov: Provider, x: Endpoint)
    requires SelfInv(prov, x)
    ensures |x.local.localToGlobal| < MANAGEMENT_ID_REGISTRATION
    ensures TxInv(prov, x.local, x.tx, x.rx.noted) && BufferOk(x.ack, x.rx.noted)
  {
    hide TxInv, BufferOk, StagesOk, AnnouncedAll, Appended, IsListing;
  }

  lemma FlushWire(prov: Provider, local: Ids, tx: Tx, acc: set<Key>, ack: Bytes, stage: Stage)
    requires |local.localToGlobal| < MANAGEMENT_ID_REGISTRATION && WireOk(prov, local, tx)
    requires TxInv(prov, local, tx, acc) && BufferOk(ack, acc) && AckLaneReady(prov, local)
    ensures var r := Flush(tx, ack, stage, local.ack); r.tx.wrapped || WireOk(prov, local, r.tx)
  {
    hide TxInv, WireOk, SendPacket;
    SendPacketWire(prov, local, tx, acc, ACK_CHANNEL, AckLaneOf(stage, local.ack), ack);
  }

  lemma AcceptWire(e: Env, x: Endpoint, key: Option<Key>)
    requires UpInv(e.mine, x) && SpendsOk(e.mine, x)
    ensures var x' := Accept(x, key).x; x'.tx.wrapped || SpendsOk(e.mine, x')
  {
    hide UpInv, SelfInv, TxInv, WireOk, Flush, AckLaneReady, BufferOk;
    UpIsSelf(e.mine, x);
    UpParts(e, x);
    TableShort(e.mine, x);
    FlushWire(e.mine, x.local, x.tx, x.rx.noted, x.ack, StageOf(x.state));
  }

  lemma QuietWire(prov: Provider, x: Endpoint, x': Endpoint)
    requires SpendsOk(prov, x) && Quietly(x, x')
    ensures SpendsOk(prov, x')
  {
    hide WireOk, Fewer;
    FewerWire(prov, x.local, x.tx, x'.tx);
  }

  lemma ReceiveWire(e: Env, y: Endpoint, x: Endpoint, p: Packet)
    requires PeerOk(e, y) && Good(e, y, x) && SpendsOk(e.mine, x) && p in y.tx.sent
    requires !Receive(x, e.mine, Frame(p)).x.tx.wrapped
    ensures SpendsOk(e.mine, Receive(x, e.mine, Frame(p)).x)
  {
    hide PeerOk, Good, SpendsOk, ReceiveBody, Frame, FrameReads, Speculate, Taking, Parse, LaneChannel, PacketFits,
         Elsewhere, Accept, DecodePrimary, Extends, Quietly, UpInv, SelfInv;
    PacketKind(e, y, p);
    FrameRoundTrip(p);
    PrimaryRead(p);
    SpeculateGood(e, y, x, p);
    SpeculateQuiet(x, p.lane.chan);
    QuietWire(e.mine, x, Speculate(x, p.lane.chan));
    var z := Speculate(x, p.lane.chan);
    var stage := StageOf(z.state);
    var g := z.rx.notLocal.GlobalId(stage, p.lane.chan);
    if g.Some? && ChannelOf(stage, p.lane.chan, g.value, e.mine).Some? {
      var ch := ChannelOf(stage, p.lane.chan, g.value, e.mine).value;
      TakingFrom(e, y, z, p, g.value, ch);
      TakingParts(e, y, z, p, g.value, ch);
      BodyElsewhere(z, e.mine, p, g.value, ch);
      GoodSelf(e, y, z);
      AcceptWire(e, z, p.key);
      if Accept(z, p.key).x.tx.wrapped {
        BodyWraps(z, e.mine, p, g.value, ch);
      } else {
        QuietWire(e.mine, Accept(z, p.key).x, Receive(x, e.mine, Frame(p)).x);
      }
    }
  }

  lemma TickWire(e: Env, x: Endpoint, delta: nat)
    requires UpInv(e.mine, x) && SpendsOk(e.mine, x)
    ensures var x' := Tick(x, delta).x; x'.tx.wrapped || SpendsOk(e.mine, x')
  {
    hide UpInv, SelfInv, TxInv, WireOk, Flush, AckLaneReady, BufferOk, Resend, R.Resender.Overflows;
    UpIsSelf(e.mine, x);
    UpParts(e, x);
    TableShort(e.mine, x);
    ResendGood(e.mine, x.local, x.tx, x.rx.noted, delta);
    ResendWire(e.mine, x.local, x.tx, x.rx.noted, delta);
    FlushWire(e.mine, x.local, Resend(x.tx, delta), x.rx.noted, x.ack, StageOf(x.state));
  }

  lemma AppSendWire(e: Env, x: Endpoint, g: nat, payload: Bytes)
    requires e.mine.WellFormed() && UpInv(e.mine, x) && AppChannel(e.mine, g) && SpendsOk(e.mine, x)
    ensures var x' := AppSend(x, e.mine, g, payload).x; x'.tx.wrapped || SpendsOk(e.mine, x')
  {
    hide UpInv, SelfInv, SendPacket, AppChannel, IsAckLane, LaneChannel, WireOk, TxInv;
    AppLane(e, x, g);
    UpIsSelf(e.mine, x);
    TableShort(e.mine, x);
    if x.state.Transfer? && x.local.LocalId(Tra, g).Some? && e.mine.ById(g).Some? {
      var lane := Lane(Tra, x.local.LocalId(Tra, g).value);
      SendPacketWire(e.mine, x.local, x.tx, x.rx.noted, e.mine.ById(g).value, lane, payload);
    }
  }

  // ---- Opening ----

  /// The announcements do not depend on the table.
  ghost predicate AnnouncesOk(prov: Provider, tx: Tx) {
    TxInv(prov, EmptyIds(), tx, {}) && NoTransferYet(tx) && WireOk(prov, EmptyIds(), tx)
  }

  lemma AnnouncementWire(prov: Provider, tx: Tx, payload: Bytes)
    requires AnnouncesOk(prov, tx) && |payload| <= MAX_NON_SEGMENTED_PAYLOAD
    ensures var t := SendPacket(tx, MANAGEMENT_CHANNEL, MANAGEMENT_LANE, payload).tx; t.wrapped || AnnouncesOk(prov, t)
  {
    hide TxInv, NoTransferYet, WireOk, SendPacket;
    SendAnnouncement(prov, EmptyIds(), tx, payload);
    SendPacketWire(prov, EmptyIds(), tx, {}, MANAGEMENT_CHANNEL, MANAGEMENT_LANE, payload);
  }

  lemma CounterWire(prov: Provider, tx: Tx, i: nat)
    requires AnnouncesOk(prov, tx)
    ensures AnnouncesOk(prov, tx.(orders := tx.orders.Set(i, 0, 0)))
  {
    hide TxInv, NoTransferYet, WireOk;
    CounterAdded(prov, EmptyIds(), tx, i);
    SameWire(prov, EmptyIds(), tx, tx.(orders := tx.orders.Set(i, 0, 0)));
  }

  lemma {:induction false} AnnounceWire(prov: Provider, x: Endpoint, listing: seq<Entry>, i: nat)
    requires i <= |listing| < U32 && AnnouncesOk(prov, x.tx)
    ensures var t := AnnounceFrom(x, listing, i).x.tx; t.wrapped || AnnouncesOk(prov, t)
    decreases |listing| - i
  {
    hide SendPacket, AnnouncesOk, RegistrationPayload, Counted, Tallied;
    if i < |listing| {
      var e, r := listing[i], AnnounceOne(x, listing[i], i);
      if |e.name| <= MAX_NAME {
        RegistrationShort(e.name, i);
        AnnouncementWire(prov, x.tx, RegistrationPayload(e.name, i));
      }
      if r.out.Fine? {
        if r.x.tx.wrapped {
          AnnounceFromOnward(r.x, listing, i + 1);
        } else {
          var payload := RegistrationPayload(e.name, i);
          CounterWire(prov, SendPacket(x.tx, MANAGEMENT_CHANNEL, MANAGEMENT_LANE, payload).tx, i);
          AnnounceWire(prov, r.x, listing, i + 1);
        }
      }
    }
  }

  lemma EndWire(prov: Provider, x: Endpoint)
    requires AnnouncesOk(prov, x.tx)
    ensures var t := AnnounceEnd(x).x.tx; t.wrapped || (WireOk(prov, EmptyIds(), t) && NoTransferYet(t))
  {
    hide SendPacket, TxInv, WireOk, NoTransferYet;
    AnnouncementWire(prov, x.tx, FINAL_PAYLOAD);
    var s := SendPacket(x.tx, MANAGEMENT_CHANNEL, MANAGEMENT_LANE, FINAL_PAYLOAD).tx;
    if !s.wrapped {
      SameWire(prov, EmptyIds(), s, AnnounceEnd(x).x.tx);
      SameTransfer(s, AnnounceEnd(x).x.tx);
    }
  }

  lemma SameTransfer(tx: Tx, t: Tx)
    requires NoTransferYet(tx) && t == tx.(finalKey := t.finalKey)
    ensures NoTransferYet(t)
  {
    forall lane: Lane | lane.stage.Tra? && t.orders.Has(lane)
      ensures t.orders.At(lane) == 0
    {
      assert tx.orders.Has(lane);
    }
  }

  lemma TableFreeWire(prov: Provider, local: Ids, tx: Tx)
    requires WireOk(prov, EmptyIds(), tx) && NoTransferYet(tx)
    ensures WireOk(prov, local, tx)
  {
    hide Times, Left, Frame;
    forall p | p in tx.sent
      ensures Budgeted(prov, local, tx, p)
    {
      assert Budgeted(prov, EmptyIds(), tx, p);
      assert LaneChannel(prov, local, p.lane) == LaneChannel(prov, EmptyIds(), p.lane);
    }
  }

  lemma OpenedWire(prov: Provider, listing: seq<Entry>)
    requires prov.WellFormed() && IsListing(prov, listing) && !Initialize(NewEndpoint(), prov, listing).x.tx.wrapped
    ensures SpendsOk(prov, Initialize(NewEndpoint(), prov, listing).x)
  {
    NewAnnounces(prov, listing);
    hide AnnounceFrom, AnnounceEnd, AnnouncesOk, WireOk, NoTransferYet, IsListing, TooRoomy, Counted, Tallied,
         Provider.WellFormed;
    ListingLength(prov, listing);
    var y := WithListing(NewEndpoint(), prov, listing);
    AnnounceWire(prov, y, listing, 0);
    var r := AnnounceFrom(y, listing, 0);
    if r.x.tx.wrapped {
      AnnounceEndOnward(r.x);
    } else {
      EndWire(prov, r.x);
      AnnouncesParts(prov, r.x.tx);
    }
    var x' := Initialize(NewEndpoint(), prov, listing).x;
    TableFreeWire(prov, x'.local, x'.tx);
  }

  lemma AnnouncesParts(prov: Provider, tx: Tx)
    requires AnnouncesOk(prov, tx)
    ensures WireOk(prov, EmptyIds(), tx) && NoTransferYet(tx)
  {
  }

  lemma NewAnnounces(prov: Provider, listing: seq<Entry>)
    ensures AnnouncesOk(prov, WithListing(NewEndpoint(), prov, listing).tx)
    ensures WireOk(prov, EmptyIds(), NewEndpoint().tx) && NoTransferYet(NewEndpoint().tx)
  {
  }

  // ---- Every run ----

  lemma TakesWire(e: Env, y: Endpoint, x: Endpoint, datagram: Bytes)
    requires PeerOk(e, y) && Good(e, y, x) && SpendsOk(e.mine, x) && datagram in y.tx.wire
    requires !Receive(x, e.mine, datagram).x.tx.wrapped
    ensures SpendsOk(e.mine, Receive(x, e.mine, datagram).x)
  {
    hide PeerOk, Good, Receive, Frame, SpendsOk;
    var p := OnTheWire(e, y, datagram);
    ReceiveWire(e, y, x, p);
  }

  lemma ActWire(e: Env, y: Endpoint, n: Node, peer: Node, a: Action)
    requires PeerOk(e, y) && Good(e, y, n.x) && peer.x == y && SpendsOk(e.mine, n.x) && !a.Opens?
    requires Enabled(e.mine, n, peer, a) && !Act(e.mine, n, a).x.tx.wrapped
    ensures SpendsOk(e.mine, Act(e.mine, n, a).x)
  {
    hide PeerOk, Good, Receive, Tick, AppSend, AppChannel, Enumerates, SpendsOk, UpInv, SelfInv;
    PeerEnv(e, y);
    GoodSelf(e, y, n.x);
    match a
    case Takes(datagram) => TakesWire(e, y, n.x, datagram);
    case Ticks(delta) => TickWire(e, n.x, delta);
    case Sends(global, payload) => AppSendWire(e, n.x, global, payload);
  }

  lemma OpensWire(prov: Provider, n: Node, peer: Node, a: Action)
    requires prov.WellFormed() && CountsOk(n) && a.Opens? && Enabled(prov, n, peer, a) && !Act(prov, n, a).x.tx.wrapped
    ensures SpendsOk(prov, Act(prov, n, a).x)
  {
    hide Initialize, SpendsOk, Sorted, IsListing, Enumerates, Counted, Tallied, Provider.WellFormed;
    SortedListing(prov, a.all);
    OpenedWire(prov, Sorted(prov, a.all));
  }

  lemma StepWire(c: Config, s: Sys, e: Event)
    requires c.Ok() && SysInv(c, s) && Sound(c, s) && SpendsOk(c.At(e.side), s.At(e.side).x)
    requires Unwrapped(s) && Unwrapped(Next(c, s, e))
    requires Enabled(c.At(e.side), s.At(e.side), s.At(e.side.Other()), e.action)
    ensures SpendsOk(c.At(e.side), Next(c, s, e).At(e.side).x)
  {
    hide Sound, Act, PeerOk, Good, NodeOk, RecvInv, AcceptOk, QuietOk, KeysDistinct, Enabled, EnvOk, CountsOk, SpendsOk,
         Provider.WellFormed;
    StillUnwrapped(Next(c, s, e), e.side);
    SoundSide(c, s, e.side);
    SideOk(c, s, e.side);
    if e.action.Opens? {
      OpensWire(c.At(e.side), s.At(e.side), s.At(e.side.Other()), e.action);
    } else {
      Running(c.At(e.side), s.At(e.side), s.At(e.side.Other()), e.action);
      UpIsGood(c, s, e.side);
      ActWire(c.EnvOf(e.side), s.At(e.side.Other()).x, s.At(e.side), s.At(e.side.Other()), e.action);
    }
  }

  lemma {:induction false} RunWire(c: Config, run: seq<Sys>, events: seq<Event>, i: nat, side: Side)
    requires c.Ok() && IsRun(c, run, events) && i < |run| && Unwrapped(run[i])
    ensures SpendsOk(c.At(side), run[i].At(side).x)
  {
    hide SysInv, Sound, Enabled, Act, Unwrapped, Forward, SpendsOk;
    if i == 0 {
      NewSpends(c.At(side));
    } else {
      var e := events[i - 1];
      assert run[i] == Next(c, run[i - 1], e);
      RunSound(c, run, events, i - 1);
      StepKeeps(c, run[i - 1], e);
      Before(run[i - 1], run[i]);
      UnwrappedSound(c, run[i - 1]);
      RunWire(c, run, events, i - 1, side);
      if e.side == side {
        StepWire(c, run[i - 1], e);
      }
    }
  }

  lemma NewSpends(prov: Provider)
    ensures SpendsOk(prov, NewEndpoint())
  {
  }

  /// The budget on the wire: over a whole run the datagram of a keyed packet goes out at most once and
  /// then as often as its channel allows resends, and what it still has left is counted in.
  lemma WireBudget(c: Config, run: seq<Sys>, events: seq<Event>, i: nat, side: Side, p: Packet)
    requires c.Ok() && IsRun(c, run, events) && i < |run| && Unwrapped(run[i])
    requires p in run[i].At(side).x.tx.sent && p.key.Some?
    ensures var x, prov := run[i].At(side).x, c.At(side);
            && LaneChannel(prov, x.local, p.lane).Some? && LaneChannel(prov, x.local, p.lane).value.IsReliable()
            && multiset(x.tx.wire)[Frame(p)] + Left(x.tx.resender.slots, p.key.value)
               <= 1 + LaneChannel(prov, x.local, p.lane).value.reliability.value.attempts
  {
    hide IsRun, Unwrapped, Sound, SysInv, NodeOk, RecvInv, PeerOk, EnvOk, AcceptOk, QuietOk, KeysDistinct, Left, Frame,
         SelfInv, LaneChannel, Facing;
    Reached(c, run, events, i, side);
    RunWire(c, run, events, i, side);
    SidePair(c, run[i], side);
    TableShort(c.At(side), run[i].At(side).x);
    KeyedIsReliable(c.At(side), run[i].At(side).x, p);
    assert Budgeted(c.At(side), run[i].At(side).x.local, run[i].At(side).x.tx, p);
  }

  lemma KeyedIsReliable(prov: Provider, x: Endpoint, p: Packet)
    requires TxInv(prov, x.local, x.tx, x.rx.noted) && p in x.tx.sent && p.key.Some?
    ensures LaneChannel(prov, x.local, p.lane).Some? && LaneChannel(prov, x.local, p.lane).value.IsReliable()
  {
    hide SlotsOk, KeysDistinct, OrdersDistinct, CountersOk, OnWire, LaneChannel;
    assert PacketOk(prov, x.local, x.tx, x.rx.noted, p);
  }
}
