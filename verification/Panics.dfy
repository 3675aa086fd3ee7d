/**
 Which panics of the program can happen between two endpoints that follow the protocol, and that
 all others cannot.
 */
module Panics {
  import opened Base
  import opened SlotMaps
  import opened Framing
  import opened Channels
  import opened Endpoints
  import opened Sending
  import opened Acknowledging
  import opened Counting
  import opened Invariants
  import opened Receiving
  import opened Delivering
  import opened Arriving
  import opened Opening
  import opened Systems
  import opened Guarantees
  import opened Protocol
  import opened Turns
  import opened Capacities
  import O = Ordering
  import J = Joining
  import R = Resend

  // ---- Sending ----

  /// The `j`-th slot that insertions will take has no key left.
  predicate Spent<T>(s: Slots<T>, j: nat) {
    var i := if j < |s.free| then s.free[|s.free| - 1 - j] else |s.values| + j - |s.free|;
    i < |s.generations| && s.generations[i] == U32 - 1
  }

  /// Storing `n` packets one after the other panics: one of them meets such a slot before the resender is full.
  predicate RunsOut(r: R.Resender, n: nat) {
    exists j :: 0 <= j < n && Spent(r.slots, j) && !(r.slots.Len() <= r.capacity <= r.slots.Len() + j)
  }

  lemma SpentNext<T>(s: Slots<T>, v: T, j: nat)
    requires s.Valid() && !s.Exhausted()
    ensures Spent(s.Put(v), j) == Spent(s, j + 1) && s.Put(v).Len() == s.Len() + 1
  {
    if j + 1 < |s.free| {
      assert s.free[|s.free| - 2 - j] != s.free[|s.free| - 1];
    }
  }

  lemma RunsOutStep(r: R.Resender, p: R.Buffered, n: nat)
    requires r.Valid() && n > 0
    ensures Spent(r.slots, 0) == r.slots.Exhausted()
    ensures r.Full() ==> !RunsOut(r, n)
    ensures r.Exhausted() ==> RunsOut(r, n)
    ensures !r.Full() && !r.Exhausted() ==> RunsOut(r, n) == RunsOut(r.Add(p), n - 1)
  {
    hide Spent, Slots.Valid, Slots.Exhausted, Slots.Put, Slots.Len;
    SpentFirst(r.slots);
    if !r.Full() && !r.Exhausted() {
      forall j: nat
        ensures Spent(r.Add(p).slots, j) == Spent(r.slots, j + 1) && r.Add(p).slots.Len() == r.slots.Len() + 1
      {
        SpentNext(r.slots, p, j);
      }
      if j :| 0 <= j < n && Spent(r.slots, j) && !(r.slots.Len() <= r.capacity <= r.slots.Len() + j) {
        assert Spent(r.Add(p).slots, j - 1);
      }
      if j :| 0 <= j < n - 1 && Spent(r.Add(p).slots, j)
              && !(r.slots.Len() + 1 <= r.capacity <= r.slots.Len() + 1 + j) {
        assert Spent(r.slots, j + 1);
      }
    }
  }

  lemma SpentFirst<T>(s: Slots<T>)
    ensures Spent(s, 0) == s.Exhausted()
  {
  }

  /// Sending these segments panics: their count does not fit its field, or a slot has no key left.
  predicate SegmentsPanic(r: R.Resender, ch: Channel, count: nat, n: nat) {
    n > 0 && (count > U16 || (ch.IsReliable() && RunsOut(r, n)))
  }

  lemma SegmentStored(tx: Tx, ch: Channel, p: Packet)
    requires p.lane.chan < NULL_ID && p.seg.Some? && p.seg.value.segment < U16 && p.seg.value.count <= U16
    requires tx.resender.Valid()
    ensures var r := SendReal(tx, ch, p);
            && (r.out.Crash? <==> ch.IsReliable() && tx.resender.Exhausted())
            && (r.out.Fail? <==> ch.IsReliable() && tx.resender.Full())
            && (!ch.IsReliable() ==> r.tx.resender == tx.resender)
            && (ch.IsReliable() && r.out.Fine? ==>
                  r.tx.resender.Valid() && exists b :: r.tx.resender == tx.resender.Add(b))
  {
    hide Frame;
    if ch.IsReliable() && !tx.resender.Full() && !tx.resender.Exhausted() {
      var rel := ch.reliability.value;
      var keyed := p.(key := Some(tx.resender.slots.NextKey()));
      var b := R.Buffered(Frame(keyed), rel.interval, rel.attempts, 0);
      PutValid(tx.resender.slots, b);
      assert SendReal(tx, ch, p).tx.resender == tx.resender.Add(b);
    }
  }

  lemma {:induction false} SegmentsExactly(tx: Tx, ch: Channel, lane: Lane, order: Option<nat>, key: nat,
        parts: seq<Bytes>, i: nat)
    requires i <= |parts| && lane.chan < NULL_ID && tx.resender.Valid()
    ensures SendSegments(tx, ch, lane, order, key, parts, i).out.Crash?
       <==> SegmentsPanic(tx.resender, ch, |parts|, |parts| - i)
    decreases |parts| - i
  {
    hide Frame, RunsOut, SendReal, Slots.Valid, Slots.Exhausted, R.Resender.Full, R.Resender.Exhausted, R.Resender.Add;
    if i < |parts| {
      var p := Packet(lane, Some(SegmentMeta(key, i, |parts|)), order, None, parts[i]);
      var r := SendReal(tx, ch, p);
      if |parts| > U16 {
        TooManySegments(tx, ch, p);
      } else {
        SegmentStored(tx, ch, p);
        if ch.IsReliable() {
          if r.out.Fine? {
            var b :| r.tx.resender == tx.resender.Add(b);
            RunsOutStep(tx.resender, b, |parts| - i);
          } else {
            RunsOutStep(tx.resender, R.Buffered([], 0, 0, 0), |parts| - i);
          }
        }
        if r.out.Fine? {
          SegmentsExactly(r.tx, ch, lane, order, key, parts, i + 1);
          NoneLeft(r.tx.resender);
        }
      }
    }
  }

  lemma NoneLeft(r: R.Resender)
    ensures !RunsOut(r, 0)
  {
  }

  lemma TooManySegments(tx: Tx, ch: Channel, p: Packet)
    requires p.lane.chan < NULL_ID && p.seg.Some? && p.seg.value.count > U16
    ensures SendReal(tx, ch, p).out.Crash?
  {
    hide Frame;
  }

  /// A message panics if and only if it has more segments than their count can tell, or needs a slot
  /// of the resender that has no key left.
  predicate MessagePanics(tx: Tx, ch: Channel, payload: Bytes) {
    if |payload| > MAX_NON_SEGMENTED_PAYLOAD then SegmentsPanic(tx.resender, ch, |Chunks(payload)|, |Chunks(payload)|)
    else ch.IsReliable() && tx.resender.Exhausted()
  }

  lemma SendExactly(tx: Tx, ch: Channel, lane: Lane, payload: Bytes)
    requires lane.chan < NULL_ID && (ch.IsOrdered() ==> tx.orders.Has(lane)) && tx.resender.Valid()
    ensures SendPacket(tx, ch, lane, payload).out.Crash? <==> MessagePanics(tx, ch, payload)
  {
    hide Frame, RunsOut, Slots.Valid, Slots.Exhausted, R.Resender.Full, R.Resender.Exhausted;
    var t := Submit(tx, ch, lane, payload);
    var order := if ch.IsOrdered() then Some(tx.orders.At(lane)) else None;
    if |payload| > MAX_NON_SEGMENTED_PAYLOAD {
      SegmentsExactly(OpenMessage(t, lane, payload), ch, lane, order, t.segmentKeys, Chunks(payload), 0);
    } else {
      WholeExactly(t, ch, Packet(lane, None, order, None, payload));
    }
  }

  lemma WholeExactly(tx: Tx, ch: Channel, p: Packet)
    requires p.lane.chan < NULL_ID && p.seg.None?
    ensures SendReal(tx, ch, p).out.Crash? <==> ch.IsReliable() && tx.resender.Exhausted()
  {
    hide Frame;
  }

  // ---- The clock ----

  /// The clock of a packet overflows, or the flush needs a slot that has no key left.
  predicate TickPanics(x: Endpoint, delta: nat) {
    x.tx.resender.Overflows(delta) || x.tx.resender.Update(delta).Exhausted()
  }

  lemma TickExactly(e: Env, x: Endpoint, delta: nat)
    requires UpInv(e.mine, x)
    ensures Tick(x, delta).out.Crash? <==> TickPanics(x, delta)
  {
    hide UpInv, Flush, TxInv, AckPayload, AckLaneReady, R.Resender.Overflows, R.Resender.Exhausted, R.Resender.Update;
    UpParts(e, x);
    AckLaneFits(e, x);
    FlushExactly(Resend(x.tx, delta), x.ack, StageOf(x.state), x.local.ack);
  }

  lemma NamedChannel(prov: Provider, g: nat) returns (name: Bytes)
    requires AppChannel(prov, g)
    ensures name in prov.names && prov.names[name] == g
  {
    name :| name in prov.names && prov.names[name] == g && name != ACK_NAME && name != MANAGEMENT_NAME;
  }

  /// A channel of the application can be sent on in transfer, and only then.
  lemma CanSend(e: Env, x: Endpoint, g: nat)
    requires e.mine.WellFormed() && UpInv(e.mine, x) && AppChannel(e.mine, g)
    ensures x.state.Registration? ==> x.local.LocalId(Reg, g).None?
    ensures e.mine.ById(g).Some?
    ensures x.local.LocalId(Tra, g).Some? && x.local.LocalId(Tra, g).value < NULL_ID
    ensures x.local.LocalId(Tra, g).value < |x.tx.orders.basic|
  {
    hide UpInv, SelfInv, IsAckLane, LaneChannel, ListingOk, IsListing, StandsAt, Appended;
    AppLane(e, x, g);
    var name := NamedChannel(e.mine, g);
    hide AppChannel;
    AllNumbered(e.mine, x, name);
    UpListing(e.mine, x);
    OwnNumbers(e.mine, x);
  }

  lemma AppSendExactly(e: Env, x: Endpoint, g: nat, payload: Bytes)
    requires e.mine.WellFormed() && UpInv(e.mine, x) && AppChannel(e.mine, g)
    ensures e.mine.ById(g).Some?
    ensures AppSend(x, e.mine, g, payload).out.Crash?
       <==> x.state.Transfer? && MessagePanics(x.tx, e.mine.ById(g).value, payload)
    ensures x.state.Registration? ==> AppSend(x, e.mine, g, payload) == Res(x, Fail(Unregistered))
    ensures x.state.Transfer? && |payload| <= MAX_NON_SEGMENTED_PAYLOAD ==>
              var out, ch := AppSend(x, e.mine, g, payload).out, e.mine.ById(g).value;
              (out.Fail? <==> ch.IsReliable() && x.tx.resender.Full()) && (out.Fail? ==> out == Fail(ResenderFull))
  {
    hide UpInv, AppChannel, SendPacket, MessagePanics;
    CanSend(e, x, g);
    UpSlots(e, x);
    if x.state.Transfer? {
      if |payload| <= MAX_NON_SEGMENTED_PAYLOAD {
        SendFails(x.tx, e.mine.ById(g).value, Lane(Tra, x.local.LocalId(Tra, g).value), payload);
      }
      SendExactly(x.tx, e.mine.ById(g).value, Lane(Tra, x.local.LocalId(Tra, g).value), payload);
    }
  }

  lemma SendFails(tx: Tx, ch: Channel, lane: Lane, payload: Bytes)
    requires lane.chan < NULL_ID && |payload| <= MAX_NON_SEGMENTED_PAYLOAD && (ch.IsOrdered() ==> tx.orders.Has(lane))
    ensures var out := SendPacket(tx, ch, lane, payload).out;
            (out.Fail? <==> ch.IsReliable() && tx.resender.Full()) && (out.Fail? ==> out == Fail(ResenderFull))
  {
    hide Frame;
  }

  lemma UpSlots(e: Env, x: Endpoint)
    requires UpInv(e.mine, x)
    ensures x.tx.resender.Valid()
  {
    hide BufferOk, AnnouncedOk, AnnouncedAll, StagesOk, PacketOk, KeysDistinct, OrdersDistinct, OnWire, CountersOk,
         Stored;
  }

  // ---- Handling ----

  /// Draining the announcements may be refused but does not panic.
  lemma {:induction false} DrainCalm(e: Env, y: Endpoint, x: Endpoint, g: nat, ch: Channel, w: O.Window)
    requires PeerOk(e, y) && Draining(e, y, x, MANAGEMENT_LANE, g, ch, w)
    ensures !O.Drain(w, Handler(e.mine, MANAGEMENT_LANE, g), Res(x, Fine)).state.out.Crash?
    decreases |w.pending|
  {
    hide PeerOk, HandleOne, Draining, O.Drain, Handler;
    DrainOne(w, e.mine, MANAGEMENT_LANE, g, x);
    if w.start in w.pending {
      var r := HandleOne(x, e.mine, MANAGEMENT_LANE, g, w.pending[w.start]);
      DrainStep(e, y, x, MANAGEMENT_LANE, g, ch, w);
      O.Smaller(w);
      if r.out.Fine? {
        DrainCalm(e, y, r.x, g, ch, w.Advance());
      }
    }
  }

  /// There is no orderer to take, since an earlier error has lost it, or none that can grow so far.
  predicate Unorderable(x: Endpoint, lane: Lane, order: Option<nat>) {
    order.Some? && (WindowOf(x, lane).None? || WindowOf(x, lane).value.Bursts(order.value))
  }

  lemma AnnouncementCalm(e: Env, y: Endpoint, x: Endpoint, g: nat, ch: Channel, order: nat, payload: Bytes)
    requires PeerOk(e, y) && Good(e, y, x) && LaneReady(e.mine, x, MANAGEMENT_LANE, g, ch) && ch.IsOrdered()
    requires Genuine(y, x, MANAGEMENT_LANE, ch, Some(order), payload)
    ensures Deliver(x, e.mine, MANAGEMENT_LANE, g, Some(order), payload).out.Crash?
       <==> Unorderable(x, MANAGEMENT_LANE, Some(order))
  {
    hide Good, PeerOk, Genuine, Handler, O.Drain, Draining, LaneReady, Taken;
    if WindowOf(x, MANAGEMENT_LANE).Some? {
      var w := WindowOf(x, MANAGEMENT_LANE).value;
      if !w.Refuses(order) && !w.Bursts(order) {
        TakenDraining(e, y, x, MANAGEMENT_LANE, g, ch, order, payload, w);
        DrainCalm(e, y, Taken(x, MANAGEMENT_LANE, order), g, ch, w.Push(order, payload).value);
      }
    }
  }

  lemma OrderedPanics(e: Env, y: Endpoint, x: Endpoint, lane: Lane, g: nat, ch: Channel, order: nat, payload: Bytes)
    requires PeerOk(e, y) && Good(e, y, x) && LaneReady(e.mine, x, lane, g, ch) && ch.IsOrdered() && Served(y, lane)
    requires Genuine(y, x, lane, ch, Some(order), payload)
    ensures Deliver(x, e.mine, lane, g, Some(order), payload).out.Crash? <==> Unorderable(x, lane, Some(order))
  {
    hide Good, PeerOk, Genuine, Deliver, Served;
    OrderedLane(e, x, lane, g, ch);
    if lane.stage.Tra? {
      OrderedExactly(e, y, x, lane, g, ch, order, payload);
    } else {
      AnnouncementCalm(e, y, x, g, ch, order, payload);
    }
  }

  lemma UnorderedCalm(e: Env, y: Endpoint, x: Endpoint, lane: Lane, g: nat, ch: Channel, payload: Bytes)
    requires PeerOk(e, y) && Good(e, y, x) && LaneReady(e.mine, x, lane, g, ch) && !ch.IsOrdered() && Served(y, lane)
    requires KeysKnown(y, x) && (IsAckLane(y.local, lane) ==> AckPayload(payload, y.rx.noted))
    ensures !HandleOne(x, e.mine, lane, g, payload).out.Crash?
  {
    hide Good, PeerOk, AckLocally, Converted, Register, AckPayload, AccKeys, Served, KeysKnown;
    if IsAckLane(y.local, lane) {
      AckCalm(y, x, payload);
    }
    if x.state.Transfer? {
      TransferCalm(e, y, x, lane, g, ch, payload);
    }
  }

  lemma DeliverPanics(e: Env, y: Endpoint, x: Endpoint, lane: Lane, g: nat, ch: Channel, order: Option<nat>,
        payload: Bytes)
    requires PeerOk(e, y) && Good(e, y, x) && LaneReady(e.mine, x, lane, g, ch)
    requires Genuine(y, x, lane, ch, order, payload)
    requires Served(y, lane) && KeysKnown(y, x)
    ensures Deliver(x, e.mine, lane, g, order, payload).out.Crash? <==> Unorderable(x, lane, order)
  {
    hide Good, PeerOk, LaneReady, OrderOk, AckPayload, AccKeys, Clean, IsAckLane, HandleOne, Served, KeysKnown, SentAs,
         Unorderable;
    if order.Some? {
      OrderedPanics(e, y, x, lane, g, ch, order.value, payload);
    } else {
      UnorderedCalm(e, y, x, lane, g, ch, payload);
      NoOrder(x, lane);
    }
  }

  lemma NoOrder(x: Endpoint, lane: Lane)
    ensures !Unorderable(x, lane, None)
  {
  }

  // ---- Arrivals ----

  lemma AcceptedStill(e: Env, y: Endpoint, x: Endpoint, x': Endpoint)
    requires UpInv(e.mine, x') && AcceptOk(x, y) && Extends(x, x')
    ensures KeysKnown(y, x') && AcceptOk(x', y)
  {
    hide SelfInv, AcceptOk, TxGrows, KeysKnown;
    UpIsSelf(e.mine, x');
    AcceptMoves(x, x', y);
    AcceptedKnown(e.mine, y, x');
  }

  lemma WholePanics(e: Env, y: Endpoint, x: Endpoint, p: Packet, g: nat, ch: Channel)
    requires Taking(e, y, x, p, g, ch) && p.seg.None? && AcceptOk(x, y) && Served(y, p.lane)
    requires !Accept(x, p.key).x.tx.wrapped
    ensures ReceiveWhole(x, e.mine, p.lane, g, Header(p.order, p.key), p.payload).out.Crash?
       <==> AcceptPanics(x, p.key) || (CanAccept(x, p.key) && Unorderable(x, p.lane, p.order))
  {
    hide Taking, PeerOk, Good, RecvInv, KeysDistinct, OrdersDistinct, BareOk, Extends, Accept, Deliver, Genuine,
         AccKeys, AcceptOk, UpInv, KeysKnown, Served, CanAccept;
    TakingParts(e, y, x, p, g, ch);
    AcceptGood(e, y, x, p);
    GoodParts(e, y, x);
    AcceptExactly(e, x, p.key);
    var a := Accept(x, p.key);
    if a.out.Fine? {
      WholeGenuine(e, y, x, a.x, p, g, ch);
      ReadyStill(e, x, a.x, p.lane, g, ch);
      GoodParts(e, y, a.x);
      AcceptedStill(e, y, x, a.x);
      DeliverPanics(e, y, a.x, p.lane, g, ch, p.order, p.payload);
    }
  }

  /// The segment is the last one missing, and the second header strip of the joined message panics,
  /// or finds an order that no orderer can take.
  predicate SegmentPanics(x: Endpoint, p: Packet)
    requires p.seg.Some?
  {
    var j := J.Join(x.rx.joiner, p.seg.value, p.payload).result;
    && j.Complete? && j.parts != []
    && match Rejoin(p.order.Some?, p.key.Some?, j.parts)
       case Unreadable => false
       case Crashed => true
       case Joined(order, _) => Unorderable(x, p.lane, order)
  }

  lemma SegmentExactly(e: Env, y: Endpoint, x: Endpoint, p: Packet, g: nat, ch: Channel)
    requires Taking(e, y, x, p, g, ch) && p.seg.Some? && AcceptOk(x, y) && Served(y, p.lane)
    requires !Accept(x, p.key).x.tx.wrapped
    ensures ReceiveSegment(x, e.mine, p.lane, g, ch, p.seg.value, Header(p.order, p.key), p.payload).out.Crash?
       <==> AcceptPanics(x, p.key) || (CanAccept(x, p.key) && SegmentPanics(x, p))
  {
    hide Taking, PeerOk, Good, RecvInv, KeysDistinct, OrdersDistinct, BareOk, Extends, Accept, Deliver, Genuine,
         AccKeys, SegmentMatches, Rejoin, Chunks, J.Join, LaneReady, AcceptOk, UpInv, KeysKnown, Served, PacketOk,
         CanAccept, Unorderable;
    TakingParts(e, y, x, p, g, ch);
    SegmentShare(e, y, p);
    AcceptGood(e, y, x, p);
    GoodParts(e, y, x);
    AcceptExactly(e, x, p.key);
    var a := Accept(x, p.key);
    if a.out.Fine? {
      GoodParts(e, y, a.x);
      var j := J.Join(a.x.rx.joiner, p.seg.value, p.payload);
      var z := a.x.(rx := a.x.rx.(joiner := j.joiner));
      JoinerGood(e, y, a.x, p);
      JoinerSound(e, y, a.x);
      JoinNotOut(y, a.x, p);
      if j.result.Complete? {
        var joined := Rejoin(ch.IsOrdered(), ch.IsReliable(), j.result.parts);
        if joined.Joined? {
          JoinedGenuine(e, y, z, p, ch, joined.order, joined.payload);
          ReadyStill(e, x, z, p.lane, g, ch);
          GoodParts(e, y, z);
          AcceptedStill(e, y, x, a.x);
          AcceptedStill(e, y, a.x, z);
          DeliverPanics(e, y, z, p.lane, g, ch, joined.order, joined.payload);
          SameOrderable(x, z, p.lane, joined.order);
        }
      }
    }
  }

  lemma SameOrderable(x: Endpoint, x': Endpoint, lane: Lane, order: Option<nat>)
    requires x'.rx.orderers == x.rx.orderers
    ensures Unorderable(x', lane, order) == Unorderable(x, lane, order)
  {
  }

  lemma JoinNotOut(y: Endpoint, x: Endpoint, p: Packet)
    requires J.JoinerOk(x.rx.joiner) && p.seg.Some? && SegmentMatches(y.tx, p)
    ensures !J.Join(x.rx.joiner, p.seg.value, p.payload).result.OutOfRange?
  {
    hide J.Join, Chunks, J.JoinerOk;
    J.JoinCounts(x.rx.joiner, p.seg.value, p.payload);
  }

  lemma JoinerSound(e: Env, y: Endpoint, x: Endpoint)
    requires RecvInv(e.mine, y, x)
    ensures J.JoinerOk(x.rx.joiner)
  {
    hide AcceptOk, TableOk, LanesOk, QuietOk, BuffersOk, RoutedOk, ReleasedOk, HandshakeOk, J.JoinerOk;
  }

  /// What a packet does that is taken in its own stage.
  predicate TakePanics(x: Endpoint, p: Packet) {
    || AcceptPanics(x, p.key)
    || (CanAccept(x, p.key) && if p.seg.None? then Unorderable(x, p.lane, p.order) else SegmentPanics(x, p))
  }

  /// It does happen: the last missing segment of any message that starts with six bytes over 127.
  lemma LastSegmentPanics(e: Env, y: Endpoint, x: Endpoint, p: Packet)
    requires PeerOk(e, y) && Good(e, y, x) && p in y.tx.sent && p.seg.Some? && p.seg.value.key < |y.tx.messages|
    requires (p.order.Some? || p.key.Some?) && CanAccept(x, p.key)
    requires J.Join(x.rx.joiner, p.seg.value, p.payload).result.Complete?
    requires var m := y.tx.messages[p.seg.value.key].payload; |m| >= 6 && forall i :: 0 <= i < 6 ==> m[i] >= 128
    ensures TakePanics(x, p)
  {
    hide PeerOk, Good, CanAccept, BareOk, SegmentMatches, J.Join, J.JoinerOk, Chunks, Rejoin;
    PeerParts(e, y, p);
    SegmentShare(e, y, p);
    JoinerGood(e, y, x, p);
    HighBytesCrash(p.order.Some?, p.key.Some?, y.tx.messages[p.seg.value.key].payload);
  }

  lemma BodyPanics(e: Env, y: Endpoint, x: Endpoint, p: Packet, g: nat, ch: Channel)
    requires Taking(e, y, x, p, g, ch) && FrameReads(p, Frame(p)) && AcceptOk(x, y) && Served(y, p.lane)
    requires !Accept(x, p.key).x.tx.wrapped
    ensures ReceiveBody(x, e.mine, p.lane, g, ch, p.seg.Some?, DecodePrimary(Frame(p)).rest).out.Crash?
       <==> TakePanics(x, p)
  {
    hide Taking, PeerOk, Good, RecvInv, KeysDistinct, OrdersDistinct, BareOk, ReceiveSegment, ReceiveWhole, Frame,
         DecodePrimary, DecodeSegment, ReadHeader, LaneReady, AcceptOk, Served, Accept, CanAccept, Unorderable,
         SegmentPanics;
    TakingParts(e, y, x, p, g, ch);
    if p.seg.None? {
      WholePanics(e, y, x, p, g, ch);
    } else {
      SegmentExactly(e, y, x, p, g, ch);
    }
  }

  lemma PeerServes(e: Env, y: Endpoint, p: Packet)
    requires PeerOk(e, y) && p in y.tx.sent
    ensures Served(y, p.lane)
  {
    hide TxInv, BufferOk, AnnouncedOk, AnnouncedAll, EnvOk;
  }

  /// A counter that starts over while a packet is accepted stays noted to the end of the step.
  lemma BodyWraps(x: Endpoint, prov: Provider, p: Packet, g: nat, ch: Channel)
    requires FrameReads(p, Frame(p)) && ch.IsOrdered() == p.order.Some? && ch.IsReliable() == p.key.Some?
    requires Accept(x, p.key).x.tx.wrapped
    ensures ReceiveBody(x, prov, p.lane, g, ch, p.seg.Some?, DecodePrimary(Frame(p)).rest).x.tx.wrapped
  {
    hide Frame, DecodePrimary, DecodeSegment, ReadHeader, Accept, Deliver, J.Join, Rejoin, Counted, Tallied;
    var a := Accept(x, p.key);
    if p.seg.None? {
      DeliverReacts(a.x, prov, p.lane, g, p.order, p.payload);
    } else {
      var j := J.Join(a.x.rx.joiner, p.seg.value, p.payload);
      var z := a.x.(rx := a.x.rx.(joiner := j.joiner));
      if j.result.Complete? && j.result.parts != [] {
        var joined := Rejoin(ch.IsOrdered(), ch.IsReliable(), j.result.parts);
        if joined.Joined? {
          DeliverReacts(z, prov, p.lane, g, joined.order, joined.payload);
        }
      }
    }
  }

  /// The receiver finds a channel for every packet of its own stage.
  lemma StageServed(e: Env, y: Endpoint, x: Endpoint, p: Packet)
    requires PeerOk(e, y) && Good(e, y, x) && p in y.tx.sent && p.lane.stage == StageOf(x.state)
    ensures var g := x.rx.notLocal.GlobalId(p.lane.stage, p.lane.chan);
            g.Some? && ChannelOf(p.lane.stage, p.lane.chan, g.value, e.mine).Some?
  {
    hide PeerOk, Good, PacketFits, Known, Appended;
    PacketKind(e, y, p);
    if x.state.Transfer? {
      Complete(e, y, x);
      SameEntry(e, y, x, p.lane.chan);
    }
  }

  /// The packet is of the stage that the receiver is in, or takes it for a sign to enter, and panics there.
  predicate ReceivePanics(x: Endpoint, p: Packet) {
    var z := AtArrival(x, p);
    p.lane.stage == StageOf(z.state) && TakePanics(z, p)
  }

  /// When a datagram of the peer panics, exactly.
  lemma ReceiveExactly(e: Env, y: Endpoint, x: Endpoint, p: Packet)
    requires PeerOk(e, y) && Good(e, y, x) && AcceptOk(x, y) && p in y.tx.sent
    requires !Receive(x, e.mine, Frame(p)).x.tx.wrapped
    ensures Receive(x, e.mine, Frame(p)).out.Crash? <==> ReceivePanics(x, p)
  {
    hide PeerOk, Good, Extends, ReceiveBody, Frame, FrameReads, Speculate, Taking, DecodeSegment, ReadHeader,
         DecodePrimary, Parse, LaneChannel, PacketFits, AcceptOk, UpInv, Served, TakePanics, Accept, KeysKnown;
    PacketKind(e, y, p);
    FrameRoundTrip(p);
    PrimaryRead(p);
    SpeculateGood(e, y, x, p);
    PeerServes(e, y, p);
    var z := Speculate(x, p.lane.chan);
    GoodParts(e, y, z);
    AcceptedStill(e, y, x, z);
    var stage := StageOf(z.state);
    if p.lane.stage == stage {
      StageServed(e, y, z, p);
    }
    var global := z.rx.notLocal.GlobalId(stage, p.lane.chan);
    if global.Some? {
      var ch := ChannelOf(stage, p.lane.chan, global.value, e.mine);
      if ch.Some? {
        TakingFrom(e, y, z, p, global.value, ch.value);
        TakingParts(e, y, z, p, global.value, ch.value);
        if Accept(z, p.key).x.tx.wrapped {
          BodyWraps(z, e.mine, p, global.value, ch.value);
        } else {
          BodyPanics(e, y, z, p, global.value, ch.value);
        }
      }
    }
  }

  // ---- Every run ----

  /// The action makes its side panic.
  ghost predicate Panics(prov: Provider, n: Node, peer: Node, a: Action) {
    match a
    case Opens(_) => TotalAsked(prov) >= USIZE
    case Takes(datagram) => exists p :: p in peer.x.tx.sent && Frame(p) == datagram && ReceivePanics(n.x, p)
    case Ticks(delta) => TickPanics(n.x, delta)
    case Sends(g, payload) =>
      n.x.state.Transfer? && prov.ById(g).Some? && MessagePanics(n.x.tx, prov.ById(g).value, payload)
  }

  lemma TakesPanics(e: Env, y: Endpoint, x: Endpoint, datagram: Bytes)
    requires PeerOk(e, y) && Good(e, y, x) && AcceptOk(x, y) && datagram in y.tx.wire
    requires !Receive(x, e.mine, datagram).x.tx.wrapped
    ensures Receive(x, e.mine, datagram).out.Crash?
       <==> exists p :: p in y.tx.sent && Frame(p) == datagram && ReceivePanics(x, p)
  {
    hide PeerOk, Good, AcceptOk, Receive, Frame, ReceivePanics;
    var q := OnTheWire(e, y, datagram);
    forall p | p in y.tx.sent && Frame(p) == datagram
      ensures Receive(x, e.mine, datagram).out.Crash? <==> ReceivePanics(x, p)
    {
      ReceiveExactly(e, y, x, p);
    }
  }

  lemma ActPanics(e: Env, m: Node, n: Node, a: Action)
    requires PeerOk(e, m.x) && Good(e, m.x, n.x) && AcceptOk(n.x, m.x)
    requires n.phase.Up? && Enabled(e.mine, n, m, a) && !Act(e.mine, n, a).x.tx.wrapped
    ensures Act(e.mine, n, a).phase.Panicked? <==> Panics(e.mine, n, m, a)
  {
    hide PeerOk, Good, Receive, Tick, AppSend, AppChannel, AcceptOk, UpInv, Frame, ReceivePanics, Chunks;
    PeerEnv(e, m.x);
    GoodParts(e, m.x, n.x);
    match a
    case Takes(datagram) => TakesPanics(e, m.x, n.x, datagram);
    case Ticks(delta) => TickExactly(e, n.x, delta);
    case Sends(global, payload) => AppSendExactly(e, n.x, global, payload);
    case Opens(_) =>
  }

  /// When a step panics, exactly. Opening: the capacities of the channels overflow. The clock: the timer
  /// of a stored packet overflows. A message: it has more segments than their count can tell. Whatever
  /// stores a packet: its slot has no key left. A datagram that can be accepted: there is no orderer
  /// for its order any more, or none can grow so far; or it is the last segment of a message whose
  /// second header strip ends in either of these. So no unfinished branch is reached, no index is out of
  /// range, and no acknowledgement panics.
  lemma PanicsExactly(c: Config, run: seq<Sys>, events: seq<Event>, i: nat)
    requires c.Ok() && IsRun(c, run, events) && i < |events| && Unwrapped(run[i + 1])
    ensures run[i + 1].At(events[i].side).phase.Panicked?
       <==> Panics(c.At(events[i].side), run[i].At(events[i].side), run[i].At(events[i].side.Other()), events[i].action)
  {
    hide SysInv, Enabled, Act, PeerOk, Good, AcceptOk, Panics, Sound, Unwrapped, SelfInv, RecvInv, EnvOk;
    var s, e := run[i], events[i];
    assert run[i + 1] == Next(c, s, e);
    RunSound(c, run, events, i);
    StepKeeps(c, s, e);
    Before(s, run[i + 1]);
    UnwrappedSound(c, s);
    if e.action.Opens? {
      OpensPanics(c, s, e.side, s.At(e.side.Other()), e.action.all);
      return;
    }
    Running(c.At(e.side), s.At(e.side), s.At(e.side.Other()), e.action);
    UpIsGood(c, s, e.side);
    SidePair(c, s, e.side);
    RecvKeys(c.At(e.side.Other()), s.At(e.side).x, s.At(e.side.Other()).x);
    EnvHolds(c, e.side);
    PeerHolds(c, s, e.side);
    StillUnwrapped(run[i + 1], e.side);
    ActPanics(c.EnvOf(e.side), s.At(e.side.Other()), s.At(e.side), e.action);
  }

  lemma Running(prov: Provider, n: Node, peer: Node, a: Action)
    requires Enabled(prov, n, peer, a) && !a.Opens?
    ensures n.phase.Up?
  {
  }

  lemma OpensPanics(c: Config, s: Sys, side: Side, peer: Node, all: seq<Entry>)
    requires c.Ok() && SysInv(c, s) && Enabled(c.At(side), s.At(side), s.At(side.Other()), Opens(all))
    ensures Act(c.At(side), s.At(side), Opens(all)).phase.Panicked?
       <==> Panics(c.At(side), s.At(side), peer, Opens(all))
  {
    hide Initialize, Counted, Tallied, Sound, IsListing, Enumerates, Sorted, TotalAsked;
    SortedListing(c.At(side), all);
    OpeningExactly(c.At(side), Sorted(c.At(side), all));
  }

  lemma StillUnwrapped(s: Sys, side: Side)
    requires Unwrapped(s)
    ensures !s.At(side).x.tx.wrapped
  {
  }

  lemma UnwrappedSound(c: Config, s: Sys)
    requires SysInv(c, s) && Unwrapped(s)
    ensures Sound(c, s)
  {
    hide Sound;
  }

  lemma PeerHolds(c: Config, s: Sys, side: Side)
    requires Sound(c, s) && EnvOk(c.EnvOf(side))
    ensures PeerOk(c.EnvOf(side), s.At(side.Other()).x)
  {
    hide SelfInv, RecvInv, UpInv, Untouched, EnvOk;
  }
}
