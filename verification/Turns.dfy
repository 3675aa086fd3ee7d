/**
 What a step does to the last detail: when a packet is accepted, what its turn on a channel achieves,
 and when an orderer is lost.
 */
module Turns {
  import opened Base
  import opened SlotKeys
  import opened Framing
  import opened Channels
  import opened Endpoints
  import opened Sending
  import opened Acknowledging
  import opened Counting
  import opened Invariants
  import opened Receiving
  import opened Delivering
  import opened Guarantees
  import opened Protocol
  import O = Ordering

  // ---- The duplicate check ----

  /// A flush fails only for want of room in the resender, and panics only for a slot that has no key left.
  lemma FlushExactly(tx: Tx, ack: Bytes, stage: Stage, ackId: nat)
    requires |ack| <= MAX_NON_SEGMENTED_PAYLOAD && AckLaneOf(stage, ackId).chan < NULL_ID
    ensures var r := Flush(tx, ack, stage, ackId);
            && (r.out.Crash? <==> tx.resender.Exhausted())
            && (r.out.Fine? <==> !tx.resender.Full() && !tx.resender.Exhausted())
  {
    hide Frame, Chunks;
  }

  /// The key is new in this stage, and there is room to acknowledge it: in the buffer, or after
  /// flushing that in the resender.
  predicate CanAccept(x: Endpoint, key: Option<Key>) {
    key.None? ||
    (key.value !in x.rx.dup
     && (|x.ack + EncodeKey(key.value)| <= MAX_NON_SEGMENTED_PAYLOAD
         || (!x.tx.resender.Full() && !x.tx.resender.Exhausted())))
  }

  /// The key is new, and flushing the buffer to make room for it panics.
  predicate AcceptPanics(x: Endpoint, key: Option<Key>) {
    && key.Some? && key.value !in x.rx.dup
    && |x.ack + EncodeKey(key.value)| > MAX_NON_SEGMENTED_PAYLOAD && x.tx.resender.Exhausted()
  }

  lemma AckLaneFits(e: Env, x: Endpoint)
    requires UpInv(e.mine, x)
    ensures AckLaneOf(StageOf(x.state), x.local.ack).chan < NULL_ID
  {
    hide TxInv, BufferOk, StagesOk, AnnouncedAll;
    UpParts(e, x);
  }

  lemma AcceptExactly(e: Env, x: Endpoint, key: Option<Key>)
    requires UpInv(e.mine, x)
    ensures var r := Accept(x, key); (r.out.Crash? <==> AcceptPanics(x, key)) && (r.out.Fine? <==> CanAccept(x, key))
  {
    hide UpInv, Flush, TxInv, AckPayload, AckLaneReady;
    UpParts(e, x);
    AckLaneFits(e, x);
    FlushExactly(x.tx, x.ack, StageOf(x.state), x.local.ack);
  }

  // ---- Acknowledgements ----

  /// Every key that the peer has accepted lies within the table of generations.
  ghost predicate KeysKnown(y: Endpoint, x: Endpoint) {
    forall k :: k in y.rx.noted ==> k.index < |x.tx.resender.slots.generations|
  }

  lemma AcceptedKnown(prov: Provider, y: Endpoint, x: Endpoint)
    requires SelfInv(prov, x) && AcceptOk(x, y)
    ensures KeysKnown(y, x)
  {
    hide BufferOk, AnnouncedOk, AnnouncedAll, StagesOk, PacketOk, KeysDistinct, OrdersDistinct, CountersOk, OnWire,
         Stored;
    forall k | k in y.rx.noted
      ensures k.index < |x.tx.resender.slots.generations|
    {
      var a :| a in y.rx.accepted && a.key == k;
      assert FromPeer(x.tx.sent, a);
      var p :| p in x.tx.sent && p.key == Some(a.key) && p.lane.stage == a.stage;
      assert x.tx.resender.slots.Within(p.key.value);
    }
  }

  lemma {:induction false} AckKeysCalm(x: Endpoint, ks: seq<Key>)
    requires forall k :: k in ks ==> Fits(k) && k.index < |x.tx.resender.slots.generations|
    ensures AckLocally(x, EncodeKeys(ks)).out.Fine?
    decreases |ks|
  {
    if ks != [] {
      KeyRoundTrip(ks[0], EncodeKeys(ks[1..]));
      AckKeysCalm(AckOne(x, ks[0]), ks[1..]);
    }
  }

  lemma AckCalm(y: Endpoint, x: Endpoint, packet: Bytes)
    requires KeysKnown(y, x) && AckPayload(packet, y.rx.noted)
    ensures AckLocally(x, packet).out.Fine?
  {
    hide AckLocally;
    var ks :| packet == EncodeKeys(ks) && KeysIn(ks, y.rx.noted);
    AckKeysCalm(x, ks);
  }

  // ---- Handling ----

  /// A lane on which the peer sends: not the one of its management channel in transfer.
  ghost predicate Served(y: Endpoint, lane: Lane) {
    lane.stage.Tra? ==> lane.chan != y.local.management
  }

  lemma BufferThere(e: Env, y: Endpoint, x: Endpoint, lane: Lane, g: nat, ch: Channel)
    requires PeerOk(e, y) && Good(e, y, x) && x.state.Transfer? && LaneReady(e.mine, x, lane, g, ch)
    ensures g in x.rx.buffers
  {
    hide PeerOk, RecvInv, SelfInv;
    NameOfLane(e, y, x, lane.chan);
  }

  lemma TransferCalm(e: Env, y: Endpoint, x: Endpoint, lane: Lane, g: nat, ch: Channel, packet: Bytes)
    requires PeerOk(e, y) && Good(e, y, x) && x.state.Transfer? && LaneReady(e.mine, x, lane, g, ch) && Served(y, lane)
    requires ch == ACK_CHANNEL && IsAckLane(y.local, lane) ==> AckLocally(x, packet).out.Fine?
    ensures HandleOne(x, e.mine, lane, g, packet).out.Fine?
  {
    hide PeerOk, Good, AckLocally, Behind, LaneChannel, IsAckLane;
    SameKind(e, y, x, lane, g, ch);
    SystemEntries(e, y, x);
    BufferThere(e, y, x, lane, g, ch);
  }

  /// A payload of an application is put in its buffer.
  lemma HandledAtOnce(e: Env, y: Endpoint, x: Endpoint, lane: Lane, g: nat, ch: Channel, packet: Bytes)
    requires PeerOk(e, y) && Good(e, y, x) && x.state.Transfer? && LaneReady(e.mine, x, lane, g, ch)
    requires Served(y, lane) && (ch.IsOrdered() || !IsAckLane(y.local, lane))
    ensures var r := HandleOne(x, e.mine, lane, g, packet);
            && r.out.Fine?
            && BufferOf(r.x.rx.buffers, g) == BufferOf(x.rx.buffers, g) + [packet]
            && r.x.rx.pushed == x.rx.pushed && r.x.state == x.state && r.x.rx.joiner == x.rx.joiner && r.x.tx == x.tx
  {
    hide PeerOk, Good, AckLocally, Served, Behind, LaneChannel, IsAckLane;
    TransferCalm(e, y, x, lane, g, ch, packet);
    SameKind(e, y, x, lane, g, ch);
    BufferThere(e, y, x, lane, g, ch);
  }

  // ---- The orderer of an application's channel ----

  /// The longest run of consecutive orders from the front, and what it holds.
  ghost predicate FrontRun(w: O.Window, k: nat) {
    O.Contiguous(w, k) && O.OrderAt(w.start, k) !in w.pending
  }

  lemma DrainingTransfer(e: Env, y: Endpoint, x: Endpoint, lane: Lane, g: nat, ch: Channel, w: O.Window)
    requires Draining(e, y, x, lane, g, ch, w) && lane.stage.Tra?
    ensures Good(e, y, x) && x.state.Transfer? && LaneReady(e.mine, x, lane, g, ch) && ch.IsOrdered() && w.Valid()
    ensures x.rx.orderers.Has(lane)
  {
    hide Good, O.Window.Valid;
  }

  lemma FrontStep(w: O.Window, k: nat)
    requires w.Valid() && w.start in w.pending && FrontRun(w.Advance(), k)
    ensures FrontRun(w, k + 1) && O.Run(w, k + 1) == [w.pending[w.start]] + O.Run(w.Advance(), k)
  {
    O.AdvanceContiguous(w, k);
    O.NextAt(w.start, k);
    O.AllWaiting(w, k + 1);
  }

  /// Draining `w` to `d` handed out the `k` packets at the front and no more.
  ghost predicate Ran(x: Endpoint, d: O.Drained<Res>, lane: Lane, g: nat, w: O.Window, k: nat) {
    && FrontRun(w, k)
    && d.fine && d.state.out.Fine? && d.state.x.rx.pushed == x.rx.pushed && d.state.x.rx.orderers.Has(lane)
    && d.state.x.rx.joiner == x.rx.joiner && d.state.x.tx == x.tx
    && BufferOf(d.state.x.rx.buffers, g) == BufferOf(x.rx.buffers, g) + O.Run(w, k)
  }

  lemma RanStep(x: Endpoint, x': Endpoint, d: O.Drained<Res>, lane: Lane, g: nat, w: O.Window, n: nat)
    requires w.Valid() && w.start in w.pending && Ran(x', d, lane, g, w.Advance(), n) && x'.rx.pushed == x.rx.pushed
    requires x'.rx.joiner == x.rx.joiner && x'.tx == x.tx
    requires BufferOf(x'.rx.buffers, g) == BufferOf(x.rx.buffers, g) + [w.pending[w.start]]
    ensures Ran(x, d, lane, g, w, n + 1)
  {
    hide FrontRun, O.Window.Valid, O.Run;
    FrontStep(w, n);
  }

  /// In transfer nothing is refused: draining hands out exactly the run at the front.
  lemma {:induction false} DrainInTransfer(e: Env, y: Endpoint, x: Endpoint, lane: Lane, g: nat, ch: Channel,
        w: O.Window)
      returns (k: nat)
    requires PeerOk(e, y) && Draining(e, y, x, lane, g, ch, w) && lane.stage.Tra? && Served(y, lane)
    ensures Ran(x, O.Drain(w, Handler(e.mine, lane, g), Res(x, Fine)), lane, g, w, k)
    decreases |w.pending|
  {
    hide PeerOk, HandleOne, Draining, Served, LaneReady, Ran, Good, O.Window.Valid, O.Drain, Handler;
    DrainOne(w, e.mine, lane, g, x);
    DrainingTransfer(e, y, x, lane, g, ch, w);
    if w.start in w.pending {
      var r := HandleOne(x, e.mine, lane, g, w.pending[w.start]);
      DrainStep(e, y, x, lane, g, ch, w);
      HandledAtOnce(e, y, x, lane, g, ch, w.pending[w.start]);
      O.Smaller(w);
      var n := DrainInTransfer(e, y, r.x, lane, g, ch, w.Advance());
      RanStep(x, r.x, O.Drain(w.Advance(), Handler(e.mine, lane, g), Res(r.x, Fine)), lane, g, w, n);
      k := n + 1;
    } else {
      NothingRan(x, lane, g, w);
      k := 0;
    }
  }

  lemma NothingRan(x: Endpoint, lane: Lane, g: nat, w: O.Window)
    requires w.Valid() && w.start !in w.pending && x.rx.orderers.Has(lane)
    ensures Ran(x, O.Drained(w, Res(x, Fine), true), lane, g, w, 0)
  {
    NothingWaits(w);
  }

  lemma NothingWaits(w: O.Window)
    requires w.Valid() && w.start !in w.pending
    ensures FrontRun(w, 0) && O.Run(w, 0) == []
  {
    assert O.OrderAt(w.start, 0) == w.start;
  }

  /// What became of a message on an ordered channel in transfer.
  ghost predicate Turned(x: Endpoint, r: Res, lane: Lane, g: nat, order: nat, payload: Bytes) {
    match WindowOf(x, lane)
    case None => r == Res(x, Crash)
    case Some(w) =>
      && r.x.rx.pushed == Log(x.rx.pushed, lane, order) && r.x.rx.joiner == x.rx.joiner && r.x.tx == x.tx
      && (r.out.Crash? <==> w.Bursts(order))
      && (WindowOf(r.x, lane).None? <==> w.Bursts(order) || w.Refuses(order))
      && (w.Refuses(order) ==> r.out == Fail(OrdererFull))
      && (w.Bursts(order) || w.Refuses(order) ==> r.x.rx.buffers == x.rx.buffers)
      && (!w.Bursts(order) && !w.Refuses(order) ==>
            && r.out.Fine?
            && exists k :: FrontRun(w.Push(order, payload).value, k)
                           && BufferOf(r.x.rx.buffers, g)
                              == BufferOf(x.rx.buffers, g) + O.Run(w.Push(order, payload).value, k))
  }

  lemma TakenDraining(e: Env, y: Endpoint, x: Endpoint, lane: Lane, g: nat, ch: Channel, order: nat, payload: Bytes,
        w: O.Window)
    requires PeerOk(e, y) && Good(e, y, x) && LaneReady(e.mine, x, lane, g, ch)
    requires Genuine(y, x, lane, ch, Some(order), payload) && WindowOf(x, lane) == Some(w)
    requires !w.Refuses(order) && !w.Bursts(order)
    ensures Draining(e, y, Taken(x, lane, order), lane, g, ch, w.Push(order, payload).value)
  {
    hide Good, PeerOk, UpInv, RecvInv, LanesOk, LaneOk, OrderOk, InFlight, Clean, OrdererChanged, Behind, Taken, SentAs,
         WindowRouted, O.Window.Valid, IsAckLane;
    var t := Taken(x, lane, order);
    GoodParts(e, y, x);
    RecvLanes(e, y, x);
    OrderedLane(e, x, lane, g, ch);
    LaneOf(e, y, x, lane, ch);
    TakenShape(x, lane, order);
    TakenLane(y, x, t, lane, ch, order, payload);
    OrdererGood(e, y, x, t, lane, None, ch);
    PushedWindow(y, x, t, lane, ch, order, payload, w);
    PushedRouted(e, y, x, lane, g, ch, w, order, payload);
  }

  /// The orderer's outcome in transfer, in every case.
  lemma OrderedExactly(e: Env, y: Endpoint, x: Endpoint, lane: Lane, g: nat, ch: Channel, order: nat, payload: Bytes)
    requires PeerOk(e, y) && Good(e, y, x) && x.state.Transfer? && LaneReady(e.mine, x, lane, g, ch) && Served(y, lane)
    requires Genuine(y, x, lane, ch, Some(order), payload)
    ensures Turned(x, Deliver(x, e.mine, lane, g, Some(order), payload), lane, g, order, payload)
  {
    hide Good, PeerOk, Genuine, Served, O.Drain, Handler, LaneReady, Draining, FrontRun, O.Run;
    if WindowOf(x, lane).Some? {
      var w, t := WindowOf(x, lane).value, Taken(x, lane, order);
      TakenShape(x, lane, order);
      if !w.Refuses(order) && !w.Bursts(order) {
        var w' := w.Push(order, payload).value;
        TakenDraining(e, y, x, lane, g, ch, order, payload, w);
        LaneStage(e, x, lane, g, ch);
        var k := DrainInTransfer(e, y, t, lane, g, ch, w');
      }
    }
  }

  lemma LaneStage(e: Env, x: Endpoint, lane: Lane, g: nat, ch: Channel)
    requires LaneReady(e.mine, x, lane, g, ch)
    ensures lane.stage == StageOf(x.state)
  {
  }
}
