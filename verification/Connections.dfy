/**
 The connection as an object whose fields its operations update in place. `model` is the value
 that the fields stand for, and every operation is proved to do to it what the function of the
 same name in `Endpoints` does. What the connection guarantees is proved about those functions.
 */
module Connections {
  import opened Base
  import opened VarInt
  import opened SlotKeys
  import opened SlotMaps
  import opened Framing
  import opened Strings
  import opened Channels
  import opened Counting
  import opened Endpoints
  import opened Ordering
  import R = Resend
  import J = Joining

  type Orderer = Option<PacketOrderer>

  // ---- Data per channel ----

  lemma WithAt<T>(p: PerChannel<T>, lane: Lane, v: T)
    requires p.Has(lane)
    ensures forall l: Lane {:trigger p.With(lane, v).Has(l)} :: p.With(lane, v).Has(l) == p.Has(l)
    ensures forall l: Lane {:trigger p.With(lane, v).At(l)} :: p.Has(l) ==>
              p.With(lane, v).At(l) == if l == lane then v else p.At(l)
  {
  }

  lemma SetAt<T>(p: PerChannel<T>, chan: nat, v: T, blank: T)
    ensures forall l: Lane {:trigger p.Set(chan, v, blank).Has(l)} ::
              p.Set(chan, v, blank).Has(l) == (p.Has(l) || (l.stage.Tra? && l.chan <= chan))
    ensures forall l: Lane {:trigger p.Set(chan, v, blank).At(l)} :: p.Set(chan, v, blank).Has(l) ==>
              p.Set(chan, v, blank).At(l) == if l == Lane(Tra, chan) then v else if p.Has(l) then p.At(l) else blank
  {
  }

  /// An orderer object, or its absence, stands for a window, or its absence.
  ghost predicate Stands(o: Orderer, w: Option<Window>)
    reads if o.Some? then {o.value} else {}
  {
    o.Some? == w.Some? && (o.Some? ==> o.value.Valid() && o.value.window == w.value)
  }

  /// The orderer objects, each in one place only, stand for the windows.
  ghost predicate OrderersOk(orderers: PerChannel<Orderer>, windows: PerChannel<Option<Window>>,
        owned: set<PacketOrderer>)
    reads owned
  {
    && (forall l: Lane {:trigger orderers.Has(l)} :: orderers.Has(l) == windows.Has(l))
    && (forall l: Lane {:trigger orderers.At(l)} ::
          orderers.Has(l) && orderers.At(l).Some? ==> orderers.At(l).value in owned)
    && (forall l: Lane {:trigger orderers.At(l)} :: orderers.Has(l) ==> Stands(orderers.At(l), windows.At(l)))
    && (forall l: Lane, m: Lane {:trigger orderers.At(l), orderers.At(m)} ::
          orderers.Has(l) && orderers.Has(m) && orderers.At(l).Some? && orderers.At(l) == orderers.At(m) ==> l == m)
  }

  lemma OrdererAt(orderers: PerChannel<Orderer>, windows: PerChannel<Option<Window>>, owned: set<PacketOrderer>,
        lane: Lane)
    requires OrderersOk(orderers, windows, owned)
    ensures orderers.Has(lane) == windows.Has(lane)
    ensures orderers.Has(lane) ==> Stands(orderers.At(lane), windows.At(lane))
  {
  }

  lemma OrdererTaken(orderers: PerChannel<Orderer>, windows: PerChannel<Option<Window>>, owned: set<PacketOrderer>,
        lane: Lane, orderer: PacketOrderer)
    requires OrderersOk(orderers, windows, owned) && orderers.Has(lane) && windows.Has(lane)
    requires orderers.At(lane) == Some(orderer)
    ensures OrderersOk(orderers.With(lane, None), windows.With(lane, None), owned - {orderer})
  {
    WithAt(orderers, lane, None);
    WithAt(windows, lane, None);
  }

  lemma OrdererPut(orderers: PerChannel<Orderer>, windows: PerChannel<Option<Window>>, owned: set<PacketOrderer>,
        lane: Lane, orderer: PacketOrderer)
    requires OrderersOk(orderers, windows, owned) && orderers.Has(lane) && windows.Has(lane)
    requires orderer !in owned && orderer.Valid()
    ensures OrderersOk(orderers.With(lane, Some(orderer)), windows.With(lane, Some(orderer.window)), owned + {orderer})
  {
    WithAt(orderers, lane, Some(orderer));
    WithAt(windows, lane, Some(orderer.window));
  }

  lemma OrdererAdded(orderers: PerChannel<Orderer>, windows: PerChannel<Option<Window>>, owned: set<PacketOrderer>,
        id: nat, orderer: PacketOrderer)
    requires OrderersOk(orderers, windows, owned) && orderer !in owned && orderer.Valid()
    ensures OrderersOk(orderers.Set(id, Some(orderer), None), windows.Set(id, Some(orderer.window), None),
                       owned + {orderer})
  {
    SetAt(orderers, id, Some(orderer), None);
    SetAt(windows, id, Some(orderer.window), None);
  }

  lemma FirstOrderer(o: PacketOrderer)
    requires o.Valid() && o.window == NewWindow(MANAGEMENT_CHANNEL.capacity.value)
    ensures OrderersOk(PerChannel([], None, Some(o)), NewEndpoint().rx.orderers, {o})
  {
  }

  /// The fields of the sending side stand for its value.
  ghost predicate TxFits(tx: Tx, resender: R.PacketResender, segmentKeys: nat, orders: PerChannel<nat>,
        sender: seq<Bytes>)
    reads resender, resender.packets
  {
    && tx.resender == resender.Model() && resender.Valid() && resender.capacity < USIZE
    && tx.segmentKeys == segmentKeys && tx.orders == orders && tx.wire == sender
  }

  /// The fields of the receiving side stand for its value, except for the orderers.
  ghost predicate RxFits(rx: Rx, ids: IdMapper, dup: set<Key>, joiner: J.PacketSegmentJoiner,
        buffers: map<nat, seq<Bytes>>)
    reads ids, joiner
  {
    && rx.notLocal == ids.Model() && rx.dup == dup && rx.buffers == buffers
    && rx.joiner == joiner.entries && joiner.Valid() && joiner.capacity == 0
  }

  lemma AckStep(x: Endpoint, packet: Bytes)
    requires DecodeKey(packet).Got? && DecodeKey(packet).value.index < |x.tx.resender.slots.generations|
    ensures AckLocally(x, packet) == AckLocally(AckOne(x, DecodeKey(packet).value), DecodeKey(packet).rest)
  {
  }

  lemma AckEnds(x: Endpoint, packet: Bytes)
    ensures DecodeKey(packet).Short? ==> AckLocally(x, packet) == Res(x, Fine)
    ensures DecodeKey(packet).Overlong? ==> AckLocally(x, packet) == Res(x, Crash)
    ensures DecodeKey(packet).Got? && DecodeKey(packet).value.index >= |x.tx.resender.slots.generations| ==>
              AckLocally(x, packet) == Res(x, Crash)
  {
  }

  class Connection {
    var state: State
    const localInner: IdMapper
    const notLocalInner: IdMapper
    var acknowledgeBuffer: Bytes
    var duplicateChecker: set<Key>
    const resender: R.PacketResender
    var segmentKeysCounter: nat
    var orders: PerChannel<nat>
    var orderers: PerChannel<Orderer>
    const joiner: J.PacketSegmentJoiner
    var buffers: map<nat, seq<Bytes>>
    /// What was given to the packet sender.
    var sender: seq<Bytes>
    ghost var model: Endpoint
    ghost var owned: set<PacketOrderer>

    ghost predicate Valid()
      reads this, resender, resender.packets, localInner, notLocalInner, joiner, owned
    {
      && TxFits(model.tx, resender, segmentKeysCounter, orders, sender)
      && model.ack == acknowledgeBuffer && model.state == state
      && model.local == localInner.Model() && notLocalInner != localInner
      && RxFits(model.rx, notLocalInner, duplicateChecker, joiner, buffers)
      && OrderersOk(orderers, model.rx.orderers, owned)
    }

    constructor ()
      ensures Valid() && model == NewEndpoint() && fresh(owned)
      ensures fresh(localInner) && fresh(notLocalInner) && fresh(resender) && fresh(resender.packets) && fresh(joiner)
    {
      hide OrderersOk;
      state := Registration(false, None);
      localInner := new IdMapper();
      notLocalInner := new IdMapper();
      acknowledgeBuffer, duplicateChecker, segmentKeysCounter := [], {}, 0;
      resender := new R.PacketResender();
      orders := PerChannel([], 0, 0);
      var orderer := new PacketOrderer(MANAGEMENT_CHANNEL.capacity.value);
      orderers := PerChannel([], None, Some(orderer));
      joiner := new J.PacketSegmentJoiner(0);
      buffers, sender := map[], [];
      model := NewEndpoint();
      owned := {orderer};
      new;
      FirstOrderer(orderer);
    }

    // ---- Sending ----

    /// Puts one packet on the wire. The key, if there is one, comes from the resender.
    method SendReal(ch: Channel, lane: Lane, seg: Option<SegmentMeta>, order: Option<nat>, payload: Bytes)
      returns (out: Outcome, key: Option<Key>)
      requires Valid()
      modifies `sender, `model, resender.packets
      ensures Valid()
      ensures var r := Endpoints.SendReal(old(model.tx), ch, Packet(lane, seg, order, None, payload));
              model == old(model).(tx := r.tx) && out == r.out && key == r.key
    {
      hide Frame, RxFits, OrderersOk;
      ghost var p, was := Packet(lane, seg, order, None, payload), model.tx;
      if lane.chan >= NULL_ID {
        return Fail(EncodeError), None;
      }
      var toSend := EncodePrimary(lane.chan, seg.Some?);
      if seg.Some? {
        if !(seg.value.segment < U16 && seg.value.count <= U16) {
          return Crash, None;
        }
        toSend := toSend + EncodeSegment(seg.value);
      }
      if order.Some? {
        toSend := toSend + Encode(order.value);
      }
      if ch.reliability.Some? {
        var front, reliable := toSend, ch.reliability.value;
        var added := resender.Add(
          k => R.Buffered(front + EncodeKey(k) + payload, reliable.interval, reliable.attempts, 0));
        if !added.Added? {
          return if added.Overflow? then Crash else Fail(ResenderFull), None;
        }
        key := Some(added.key);
        FrameBuilt(p.(key := key));
        sender := sender + [front + EncodeKey(key.value) + payload];
      } else {
        key := None;
        FrameBuilt(p);
        sender := sender + [toSend + payload];
      }
      out := Fine;
      model := model.(tx := Endpoints.SendReal(was, ch, p).tx);
      assert resender.Model() == model.tx.resender;
      assert sender == model.tx.wire;
    }

    /// Sends a message, in segments if it does not fit in one packet.
    method SendPacket(ch: Channel, lane: Lane, payload: Bytes) returns (out: Outcome, key: Option<Key>)
      requires Valid()
      modifies `sender, `model, `orders, `segmentKeysCounter, resender.packets
      ensures Valid()
      ensures var r := Endpoints.SendPacket(old(model.tx), ch, lane, payload);
              model == old(model).(tx := r.tx) && out == r.out && key == r.key
    {
      hide RxFits, OrderersOk;
      ghost var was := model;
      var order: Option<nat> := None;
      if ch.IsOrdered() {
        if !orders.Has(lane) {
          return Crash, None;
        }
        order := Some(orders.At(lane));
        orders := orders.With(lane, Next32(order.value));
      }
      model := was.(tx := Submit(was.tx, ch, lane, payload));
      assert Valid();
      if MAX_NON_SEGMENTED_PAYLOAD >= |payload| {
        out, key := SendReal(ch, lane, None, order, payload);
        return;
      }
      var segments := Chunks(payload);
      var segmentKey := segmentKeysCounter;
      segmentKeysCounter := Next32(segmentKeysCounter);
      model := was.(tx := OpenMessage(model.tx, lane, payload));
      assert Valid();
      ghost var before := model.tx;
      for i := 0 to |segments|
        invariant Valid() && model == was.(tx := model.tx)
        invariant SendSegments(model.tx, ch, lane, order, segmentKey, segments, i)
               == SendSegments(before, ch, lane, order, segmentKey, segments, 0)
      {
        out, key := SendReal(ch, lane, Some(SegmentMeta(segmentKey, i, |segments|)), order, segments[i]);
        if !out.Fine? {
          return;
        }
      }
      out, key := Fine, None;
    }

    // ---- Acknowledging ----

    method Flush(ackId: nat) returns (out: Outcome)
      requires Valid()
      modifies `sender, `model, `orders, `segmentKeysCounter, `acknowledgeBuffer, resender.packets
      ensures Valid()
      ensures var r := Endpoints.Flush(old(model.tx), old(model.ack), StageOf(state), ackId);
              model == old(model).(tx := r.tx, ack := r.ack) && out == r.out
    {
      hide Endpoints.SendPacket, RxFits, OrderersOk;
      var key;
      out, key := SendPacket(ACK_CHANNEL, AckLaneOf(StageOf(state), ackId), acknowledgeBuffer);
      if out.Fine? {
        acknowledgeBuffer := [];
        model := model.(ack := []);
      }
    }

    /// Notes a key for acknowledgement. If it overflows the buffer it is taken out again until the
    /// keys before it are sent.
    method Acknowledge(key: Key, ackId: nat) returns (out: Outcome)
      requires Valid()
      modifies `sender, `model, `orders, `segmentKeysCounter, `acknowledgeBuffer, resender.packets
      ensures Valid()
      ensures var r := Endpoints.Acknowledge(old(model.tx), old(model.ack), key, StageOf(state), ackId);
              model == old(model).(tx := r.tx, ack := r.ack) && out == r.out
    {
      hide Endpoints.SendPacket, RxFits, OrderersOk;
      var bufLen := |acknowledgeBuffer|;
      acknowledgeBuffer := acknowledgeBuffer + EncodeKey(key);
      if |acknowledgeBuffer| > MAX_NON_SEGMENTED_PAYLOAD {
        acknowledgeBuffer := acknowledgeBuffer[..bufLen];
        assert acknowledgeBuffer == old(acknowledgeBuffer);
        out := Flush(ackId);
        if !out.Fine? {
          return;
        }
        acknowledgeBuffer := acknowledgeBuffer + EncodeKey(key);
        assert [] + EncodeKey(key) == EncodeKey(key);
      }
      out := Fine;
      model := model.(ack := acknowledgeBuffer);
    }

    /// Releases the packets whose keys the peer lists, one key after another.
    method AcknowledgeLocally(packet: Bytes) returns (out: Outcome)
      requires Valid()
      modifies `state, `model, resender.packets
      ensures Valid()
      ensures Res(model, out) == AckLocally(old(model), packet)
    {
      hide AckLocally, DecodeKey, RxFits, OrderersOk;
      var rest := packet;
      while true
        invariant Valid()
        invariant AckLocally(model, rest) == AckLocally(old(model), packet)
        decreases |rest|
      {
        var decoded := DecodeKey(rest);
        AckEnds(model, rest);
        if decoded.Short? {
          return Fine;
        } else if decoded.Overlong? {
          return Crash;
        }
        var key := decoded.value;
        if key.index >= |resender.packets.generations| {
          return Crash;
        }
        AckStep(model, rest);
        Release(key);
        rest := decoded.rest;
      }
    }

    method Release(key: Key)
      requires Valid() && key.index < |resender.packets.generations|
      modifies `state, `model, resender.packets
      ensures Valid() && model == AckOne(old(model), key)
    {
      hide RxFits, OrderersOk;
      ghost var after := AckOne(model, key);
      GetRefines(resender.packets.Model(), key);
      if state.Registration? && state.lastKey == Some(key) {
        state := state.(lastKey := None);
      }
      var _ := resender.Remove(key);
      model := after;
    }

    // ---- From registration to transfer ----

    method Cleanup()
      requires Valid()
      modifies `model, `acknowledgeBuffer, `duplicateChecker, resender.packets
      ensures Valid()
      ensures model == EnterTransfer(old(model)).(state := old(model).state)
    {
      acknowledgeBuffer := [];
      duplicateChecker := {};
      resender.packets.Clear();
      model := EnterTransfer(model).(state := model.state);
    }

    method ConvertToTransferIfPossible()
      requires Valid()
      modifies `state, `model, `acknowledgeBuffer, `duplicateChecker, resender.packets
      ensures Valid()
      ensures model == Converted(old(model))
    {
      if state == Registration(true, None) {
        Cleanup();
        state := Transfer;
        model := model.(state := Transfer);
      }
    }

    // ---- Handling ----

    /// An announcement of the peer: a channel, or the end.
    method Register(prov: Provider, packet: Bytes) returns (out: Outcome)
      requires Valid()
      modifies this, notLocalInner, resender.packets
      ensures Valid() && fresh(owned - old(owned))
      ensures Res(model, out) == Endpoints.Register(old(model), prov, packet)
    {
      hide Endpoints.RegisterChannel, Converted, DecodeStr;
      var decoded := DecodeStr(packet, MAX_NAME);
      if decoded.Short? || (decoded.Got? && decoded.value.None?) {
        out := Fail(DecodeError);
      } else if decoded.Overlong? {
        out := Crash;
      } else if decoded.value.value != [] {
        out := RegisterChannel(prov, decoded.value.value, decoded.rest, packet);
      } else {
        if state.Registration? {
          state := state.(receivedLast := true);
        }
        model := model.(state := state, rx := HandledNow(model.rx, MANAGEMENT_LANE, packet));
        ConvertToTransferIfPossible();
        out := Fine;
      }
    }

    method RegisterChannel(prov: Provider, name: Bytes, rest: Bytes, packet: Bytes) returns (out: Outcome)
      requires Valid()
      modifies `orderers, `model, `owned, notLocalInner
      ensures Valid() && fresh(owned - old(owned))
      ensures Res(model, out) == Endpoints.RegisterChannel(old(model), prov, name, rest, packet)
    {
      hide Decode, Connection.Valid, Endpoints.EnterChannel;
      var id := Decode(rest, 32);
      if id.Short? {
        return Fail(DecodeError);
      } else if id.Overlong? {
        return Crash;
      }
      var global := prov.ByName(name);
      if global.None? {
        return Fail(UnknownChannel);
      }
      out := EnterChannel(prov, name, id.value, global.value, packet);
    }

    method EnterChannel(prov: Provider, name: Bytes, id: nat, global: nat, packet: Bytes) returns (out: Outcome)
      requires Valid()
      modifies `orderers, `model, `owned, notLocalInner
      ensures Valid() && fresh(owned - old(owned))
      ensures Res(model, out) == Endpoints.EnterChannel(old(model), prov, name, id, global, packet)
    {
      hide TxFits, OrderersOk, Ids.Inverse;
      var inserted := notLocalInner.Insert(id, global, name);
      if !inserted {
        return Fail(InvalidValue);
      }
      model := model.(rx := model.rx.(notLocal := notLocalInner.Model()));
      var ch := prov.ById(global);
      if ch.None? {
        return Crash;
      }
      if ch.value.IsOrdered() {
        AddOrderer(id, ch.value.capacity.value);
      }
      model := model.(rx := HandledNow(model.rx, MANAGEMENT_LANE, packet));
      out := Fine;
    }

    method AddOrderer(id: nat, capacity: nat)
      requires Valid()
      modifies `orderers, `model, `owned
      ensures Valid() && fresh(owned - old(owned))
      ensures model
           == old(model).(rx := old(model.rx).(
                orderers := old(model.rx.orderers).Set(id, Some(NewWindow(capacity)), None)))
    {
      hide TxFits, OrderersOk;
      ghost var windows, was := model.rx.orderers, orderers;
      var orderer := new PacketOrderer(capacity);
      orderers := orderers.Set(id, Some(orderer), None);
      owned := owned + {orderer};
      model := model.(rx := model.rx.(orderers := windows.Set(id, Some(NewWindow(capacity)), None)));
      OrdererAdded(was, windows, old(owned), id, orderer);
    }

    /// One message, in its turn.
    method HandleOne(prov: Provider, lane: Lane, global: nat, packet: Bytes) returns (out: Outcome)
      requires Valid()
      modifies this, notLocalInner, resender.packets
      ensures Valid() && fresh(owned - old(owned))
      ensures Res(model, out) == Endpoints.HandleOne(old(model), prov, lane, global, packet)
    {
      hide AckLocally, Endpoints.Register, Converted, TxFits, OrderersOk;
      if state.Registration? {
        if lane.chan == ACK_ID_REGISTRATION {
          out := AcknowledgeLocally(packet);
          if out.Fine? {
            ConvertToTransferIfPossible();
          }
        } else if lane.chan == MANAGEMENT_ID_REGISTRATION {
          out := Register(prov, packet);
        } else {
          out := Crash;
        }
      } else if notLocalInner.ackChannelId != NULL_ID && notLocalInner.ackChannelId == lane.chan {
        out := AcknowledgeLocally(packet);
      } else if notLocalInner.managementChannelId != NULL_ID && notLocalInner.managementChannelId == lane.chan {
        out := Crash;
      } else if global !in buffers {
        out := Crash;
      } else {
        buffers := buffers[global := buffers[global] + [packet]];
        model := model.(rx := HandledNow(model.rx.(buffers := buffers), lane, packet));
        out := Fine;
      }
    }

    // ---- Through the orderer ----

    /// Takes the orderer of a lane out of its place.
    method TakeOrderer(lane: Lane, order: nat) returns (orderer: PacketOrderer)
      requires Valid() && orderers.Has(lane) && orderers.At(lane).Some?
      modifies `orderers, `model, `owned
      ensures Valid() && owned == old(owned) - {orderer} && orderer in old(owned)
      ensures orderer.Valid() && old(model.rx.orderers).Has(lane)
      ensures Some(orderer.window) == old(model.rx.orderers).At(lane)
      ensures model == Taken(old(model), lane, order)
    {
      ghost var windows, was := model.rx.orderers, orderers;
      orderer := orderers.At(lane).value;
      assert windows.Has(lane) && Stands(orderers.At(lane), windows.At(lane));
      WithAt(orderers, lane, None);
      WithAt(windows, lane, None);
      orderers := orderers.With(lane, None);
      owned := owned - {orderer};
      model := Taken(model, lane, order);
      OrdererTaken(was, windows, old(owned), lane, orderer);
    }

    /// Puts an orderer back into its place.
    method PutOrderer(lane: Lane, orderer: PacketOrderer)
      requires Valid() && orderer.Valid() && orderer !in owned
      modifies `orderers, `model, `owned
      ensures Valid() && owned <= old(owned) + {orderer}
      ensures model == WithOrderer(old(model), lane, Some(orderer.window))
    {
      if orderers.Has(lane) {
        WithAt(orderers, lane, Some(orderer));
        WithAt(model.rx.orderers, lane, Some(orderer.window));
        OrdererPut(orderers, model.rx.orderers, owned, lane, orderer);
        orderers := orderers.With(lane, Some(orderer));
        owned := owned + {orderer};
      }
      model := WithOrderer(model, lane, Some(orderer.window));
    }

    /// The front packet's turn. `more` says that it was there and was accepted.
    method Turn(prov: Provider, lane: Lane, global: nat, orderer: PacketOrderer) returns (out: Outcome, more: bool)
      requires Valid() && orderer !in owned && orderer.Valid() && orderer.vec != []
      modifies this, notLocalInner, resender.packets, orderer
      ensures Valid() && fresh(owned - old(owned)) && orderer !in owned && orderer.Valid() && orderer.vec != []
      ensures more ==> out.Fine? && |orderer.window.pending| < |old(orderer.window.pending)|
      ensures Drain(old(orderer.window), Handler(prov, lane, global), Res(old(model), Fine))
           == if more then Drain(orderer.window, Handler(prov, lane, global), Res(model, Fine))
              else Drained(orderer.window, Res(model, out), out.Fine?)
    {
      hide Endpoints.HandleOne, OrderersOk, Ring, Drain, Handler, Connection.Valid, PacketOrderer.Valid;
      ghost var before := orderer.window;
      DrainOne(before, prov, lane, global, model);
      var element := orderer.Take();
      if element.None? {
        assert orderer.window.pending == before.pending;
        return Fine, false;
      }
      Smaller(before);
      out := HandleOne(prov, lane, global, element.value);
      more := out.Fine?;
      if more {
        orderer.Skip();
        assert orderer.window == before.Advance();
      }
    }

    /// `PacketOrderer.Retain` with its callback, which updates the connection, written out.
    method Retain(prov: Provider, lane: Lane, global: nat, orderer: PacketOrderer) returns (out: Outcome)
      requires Valid() && orderer !in owned && orderer.Valid() && orderer.vec != []
      modifies this, notLocalInner, resender.packets, orderer
      ensures Valid() && fresh(owned - old(owned)) && orderer !in owned && orderer.Valid()
      ensures Drained(orderer.window, Res(model, out), out.Fine?)
           == Drain(old(orderer.window), Handler(prov, lane, global), Res(old(model), Fine))
    {
      hide OrderersOk, Ring, Drain, Handler, Connection.Valid, PacketOrderer.Valid;
      var more := true;
      out := Fine;
      while more
        invariant Valid() && fresh(owned - old(owned)) && orderer !in owned && orderer.Valid() && orderer.vec != []
        invariant Drain(old(orderer.window), Handler(prov, lane, global), Res(old(model), Fine))
               == if more then Drain(orderer.window, Handler(prov, lane, global), Res(model, Fine))
                  else Drained(orderer.window, Res(model, out), out.Fine?)
        decreases if more then 1 + |orderer.window.pending| else 0
      {
        out, more := Turn(prov, lane, global, orderer);
      }
    }

    /// A message that is complete and new, in its turn on the channel.
    method Deliver(prov: Provider, lane: Lane, global: nat, order: Option<nat>, payload: Bytes) returns (out: Outcome)
      requires Valid() && (order.Some? ==> order.value < USIZE)
      modifies this, notLocalInner, resender.packets, owned
      ensures Valid() && fresh(owned - old(owned))
      ensures Res(model, out) == Endpoints.Deliver(old(model), prov, lane, global, order, payload)
    {
      hide Endpoints.HandleOne, OrderersOk, Ring, Drain, Handler;
      if order.None? {
        out := HandleOne(prov, lane, global, payload);
        return;
      }
      OrdererAt(orderers, model.rx.orderers, owned, lane);
      if !orderers.Has(lane) || orderers.At(lane).None? {
        return Crash;
      }
      out := DeliverOrdered(prov, lane, global, order.value, payload);
    }

    /// Through the orderer, which an error on the way loses.
    method DeliverOrdered(prov: Provider, lane: Lane, global: nat, order: nat, payload: Bytes) returns (out: Outcome)
      requires Valid() && order < USIZE
      requires orderers.Has(lane) && orderers.At(lane).Some?
      modifies this, notLocalInner, resender.packets, owned
      ensures Valid() && fresh(owned - old(owned))
      ensures old(model.rx.orderers).Has(lane) && old(model.rx.orderers).At(lane).Some?
      ensures Res(model, out) == Endpoints.Deliver(old(model), prov, lane, global, Some(order), payload)
    {
      hide Endpoints.HandleOne, OrderersOk, Ring, Drain, Handler, Taken, WithOrderer, Connection.Valid,
           PacketOrderer.Valid, Window.Refuses, Window.Bursts;
      var orderer := TakeOrderer(lane, order);
      var pushed := orderer.Push(order, payload);
      if pushed == CapacityReached {
        return Fail(OrdererFull);
      } else if pushed == Burst {
        return Crash;
      }
      out := Retain(prov, lane, global, orderer);
      if out.Fine? {
        PutOrderer(lane, orderer);
      }
    }

    // ---- Receiving ----

    /// The duplicate check of a keyed packet, which also acknowledges it.
    method Accept(key: Option<Key>) returns (out: Outcome)
      requires Valid()
      modifies `sender, `model, `orders, `segmentKeysCounter, `acknowledgeBuffer, `duplicateChecker, resender.packets
      ensures Valid()
      ensures Res(model, out) == Endpoints.Accept(old(model), key)
    {
      hide Endpoints.Acknowledge, TxFits, OrderersOk;
      if key.None? {
        return Fine;
      }
      if key.value in duplicateChecker {
        return Fail(DuplicateDetected);
      }
      duplicateChecker := duplicateChecker + {key.value};
      model := model.(rx := model.rx.(dup := duplicateChecker,
                                      accepted := model.rx.accepted + [Accepted(StageOf(state), key.value)]));
      if localInner.ackChannelId == NULL_ID {
        return Crash;
      }
      out := Acknowledge(key.value, localInner.ackChannelId);
      if out.Fine? {
        model := model.(rx := Noted(model.rx, Accepted(StageOf(state), key.value)));
      }
    }

    method ReceiveWhole(prov: Provider, lane: Lane, global: nat, h: Header, payload: Bytes) returns (out: Outcome)
      requires Valid() && (h.order.Some? ==> h.order.value < USIZE)
      modifies this, notLocalInner, resender.packets, owned
      ensures Valid() && fresh(owned - old(owned))
      ensures Res(model, out) == Endpoints.ReceiveWhole(old(model), prov, lane, global, h, payload)
    {
      hide Endpoints.Accept, Endpoints.Deliver, Connection.Valid;
      out := Accept(h.key);
      if out.Fine? {
        out := Deliver(prov, lane, global, h.order, payload);
      }
    }

    method ReceiveSegment(prov: Provider, lane: Lane, global: nat, ch: Channel, meta: SegmentMeta, h: Header,
          payload: Bytes)
      returns (out: Outcome)
      requires Valid() && 0 < meta.count
      modifies this, notLocalInner, resender.packets, owned, joiner
      ensures Valid() && fresh(owned - old(owned))
      ensures Res(model, out) == Endpoints.ReceiveSegment(old(model), prov, lane, global, ch, meta, h, payload)
    {
      hide Endpoints.Accept, Endpoints.Deliver, Connection.Valid, J.Join, Rejoin;
      out := Accept(h.key);
      if !out.Fine? {
        return;
      }
      var joined := AddSegment(meta, payload);
      match joined
      case Pending => out := Fine;
      case Refused(_) => out := Fail(JoinerRefused);
      case OutOfRange => out := Crash;
      case Complete(parts) =>
        if parts == [] {
          return Crash;
        }
        var message := JoinParts(ch.IsOrdered(), ch.IsReliable(), parts);
        match message
        case Unreadable => out := Fail(DecodeError);
        case Crashed => out := Crash;
        case Joined(order, full) =>
          RejoinOrderFits(ch.IsOrdered(), ch.IsReliable(), parts);
          out := Deliver(prov, lane, global, order, full);
    }

    /// The joiner has capacity 0, so it never evicts anything.
    method AddSegment(meta: SegmentMeta, payload: Bytes) returns (r: J.JoinResult)
      requires Valid() && 0 < meta.count
      modifies `model, joiner
      ensures Valid()
      ensures model == old(model).(rx := old(model.rx).(joiner := J.Join(old(model.rx.joiner), meta, payload).joiner))
      ensures r == J.Join(old(model.rx.joiner), meta, payload).result
    {
      hide J.Join, TxFits, OrderersOk, J.JoinerOk;
      assert |joiner.entries| == 0 ==> joiner.entries == map[];
      r := joiner.Add(meta, payload, true);
      model := model.(rx := model.rx.(joiner := joiner.entries));
    }

    method ReceiveBody(prov: Provider, lane: Lane, global: nat, ch: Channel, segmented: bool, body: Bytes)
      returns (out: Outcome)
      requires Valid()
      modifies this, notLocalInner, resender.packets, owned, joiner
      ensures Valid() && fresh(owned - old(owned))
      ensures Res(model, out) == Endpoints.ReceiveBody(old(model), prov, lane, global, ch, segmented, body)
    {
      hide Endpoints.ReceiveWhole, Endpoints.ReceiveSegment, Connection.Valid, ReadHeader;
      var rest := body;
      var meta := SegmentMeta(0, 0, 1);
      if segmented {
        var decoded := DecodeSegment(rest);
        if decoded.Short? {
          return Fail(DecodeError);
        } else if decoded.Overlong? {
          return Crash;
        }
        meta := decoded.value;
        rest := decoded.rest;
      }
      var header := ReadHeader(ch.IsOrdered(), ch.IsReliable(), rest);
      if header.Short? {
        out := Fail(DecodeError);
      } else if header.Overlong? {
        out := Crash;
      } else if segmented {
        out := ReceiveSegment(prov, lane, global, ch, meta, header.value, header.rest);
      } else {
        HeaderOrderFits(ch.IsOrdered(), ch.IsReliable(), rest);
        out := ReceiveWhole(prov, lane, global, header.value, header.rest);
      }
    }

    /// Enters transfer on the sight of a channel that registration does not know.
    method Speculate(chan: nat)
      requires Valid()
      modifies `state, `model, `acknowledgeBuffer, `duplicateChecker, resender.packets
      ensures Valid()
      ensures model == Endpoints.Speculate(old(model), chan)
      ensures model.state == state && model.rx.notLocal == notLocalInner.Model()
    {
      if state.Registration? && state.receivedLast && notLocalInner.GlobalId(StageOf(state), chan).None? {
        Cleanup();
        state := Transfer;
        model := model.(state := Transfer);
      }
    }

    /// `handle_message`: one datagram.
    method HandleMessage(prov: Provider, datagram: Bytes) returns (out: Outcome)
      requires Valid()
      modifies this, notLocalInner, resender.packets, owned, joiner
      ensures Valid() && fresh(owned - old(owned))
      ensures Res(model, out) == Endpoints.Receive(old(model), prov, datagram)
    {
      hide Endpoints.ReceiveBody, DecodePrimary, Endpoints.Speculate, Connection.Valid;
      var decoded := DecodePrimary(datagram);
      if decoded.Short? {
        return Fail(DecodeError);
      } else if decoded.Overlong? {
        return Crash;
      }
      var primary := decoded.value;
      Speculate(primary.chan);
      var global := notLocalInner.GlobalId(StageOf(state), primary.chan);
      if global.None? {
        return Fail(UnknownChannel);
      }
      var ch := ChannelOf(StageOf(state), primary.chan, global.value, prov);
      if ch.None? {
        return Fail(UnknownChannel);
      }
      var lane := Lane(StageOf(state), primary.chan);
      out := ReceiveBody(prov, lane, global.value, ch.value, primary.segmented, decoded.rest);
    }

    // ---- The clock, the application, opening ----

    /// `update_connection`: resends what is due and flushes the acknowledgements. An overflowing clock
    /// leaves the resender in the middle of its pass.
    method Update(delta: nat) returns (out: Outcome)
      requires Valid()
      modifies `sender, `model, `orders, `segmentKeysCounter, `acknowledgeBuffer, resender.packets
      ensures out == Tick(old(model), delta).out
      ensures !old(model.tx.resender).Overflows(delta) ==> Valid() && model == Tick(old(model), delta).x
    {
      hide Endpoints.Flush, Connection.Valid, R.Resender.Overflows;
      var calm := ResendDue(delta);
      if !calm {
        return Crash;
      }
      AckIdHeld();
      if localInner.ackChannelId == NULL_ID {
        return Crash;
      }
      out := Flush(localInner.ackChannelId);
    }

    lemma AckIdHeld()
      requires Valid()
      ensures model.local.ack == localInner.ackChannelId && model.state == state
    {
    }

    method ResendDue(delta: nat) returns (calm: bool)
      requires Valid()
      modifies `sender, `model, resender.packets
      ensures calm <==> !old(model.tx.resender).Overflows(delta)
      ensures calm ==> Valid() && model == old(model).(tx := Resend(old(model.tx), delta))
    {
      hide RxFits, OrderersOk, R.Resender.Update, R.Resender.Resent, R.Resender.Overflows, R.PacketResender.Valid;
      var resent := resender.Update(delta);
      calm := resent.Some?;
      if !calm {
        return;
      }
      sender := sender + resent.value;
      model := model.(tx := Resend(model.tx, delta));
    }

    /// A payload of the application for a channel of the provider.
    method Send(prov: Provider, global: nat, payload: Bytes) returns (out: Outcome)
      requires Valid()
      modifies `sender, `model, `orders, `segmentKeysCounter, resender.packets
      ensures Valid()
      ensures Res(model, out) == AppSend(old(model), prov, global, payload)
    {
      hide Endpoints.SendPacket, TxFits, RxFits, OrderersOk;
      var stage := StageOf(state);
      var localId := localInner.LocalId(stage, global);
      if localId.None? {
        return Fail(Unregistered);
      }
      var ch := ChannelOf(stage, localId.value, global, prov);
      if ch.None? {
        return Fail(Unregistered);
      }
      var key;
      out, key := SendPacket(ch.value, Lane(stage, localId.value), payload);
    }

    /// Makes room in the resender for all channels, if the sum does not overflow.
    method AddCapacities(prov: Provider, listing: seq<Entry>) returns (calm: bool)
      requires Valid()
      modifies `model, resender
      ensures calm <==> !TooRoomy(old(model), prov, listing)
      ensures calm ==> Valid() && model == WithListing(old(model), prov, listing)
    {
      hide RxFits, OrderersOk;
      assert listing[0..] == listing;
      for i := 0 to |listing|
        invariant model == old(model) && resender.Valid() && resender.capacity < USIZE
        invariant resender.capacity + AddedCapacity(prov, listing[i..])
               == old(resender.capacity) + AddedCapacity(prov, listing)
        invariant resender.packets.Model() == old(resender.packets.Model())
      {
        assert listing[i..][0] == listing[i] && listing[i..][1..] == listing[i + 1..];
        var ch := prov.ById(listing[i].global);
        if ch.Some? && ch.value.IsReliable() {
          if resender.capacity + ch.value.reliability.value.additionalCapacity >= USIZE {
            return false;
          }
          resender.capacity := resender.capacity + ch.value.reliability.value.additionalCapacity;
        }
      }
      assert listing[|listing|..] == [];
      calm := true;
      model := WithListing(model, prov, listing);
    }

    /// Registers one channel locally and announces it.
    method Announce(entry: Entry, i: nat) returns (out: Outcome)
      requires Valid()
      modifies `sender, `model, `orders, `segmentKeysCounter, `buffers, localInner, resender.packets
      ensures Valid()
      ensures Res(model, out) == AnnounceOne(old(model), entry, i)
    {
      hide Endpoints.SendPacket, TxFits, RxFits, OrderersOk, Ids.Inverse;
      var inserted := localInner.Insert(i, entry.global, entry.name);
      if !inserted {
        return Crash;
      }
      model := model.(local := localInner.Model());
      var name := EncodeStr(entry.name, MAX_NAME);
      if name.None? {
        return Fail(EncodeError);
      }
      var buffer := name.value + Encode(i);
      var key;
      out, key := SendPacket(MANAGEMENT_CHANNEL, MANAGEMENT_LANE, buffer);
      if !out.Fine? {
        return;
      }
      Equip(entry.global, i);
    }

    /// An order counter and a buffer for a channel.
    method Equip(global: nat, i: nat)
      requires Valid()
      modifies `model, `orders, `buffers
      ensures Valid()
      ensures model == old(model).(tx := old(model.tx).(orders := old(model.tx.orders).Set(i, 0, 0)),
                                   rx := old(model.rx).(buffers := old(model.rx.buffers)[global := []]))
    {
      hide OrderersOk;
      orders := orders.Set(i, 0, 0);
      buffers := buffers[global := []];
      model := model.(tx := model.tx.(orders := orders), rx := model.rx.(buffers := buffers));
    }

    /// `initialize_connection`: sorts the channels by frequency, numbers and announces them, then the end.
    method Initialize(prov: Provider, all: seq<Entry>) returns (out: Outcome)
      requires Valid() && state.Registration?
      modifies `state, `sender, `model, `orders, `segmentKeysCounter, `buffers, localInner, resender, resender.packets
      ensures out == Endpoints.Initialize(old(model), prov, Sorted(prov, all)).out
      ensures !TooRoomy(old(model), prov, Sorted(prov, all)) ==>
                Valid() && model == Endpoints.Initialize(old(model), prov, Sorted(prov, all)).x
      ensures Enumerates(prov, all) ==> IsListing(prov, Sorted(prov, all))
    {
      hide Connection.Valid, AnnounceOne, AnnounceEnd, WithListing, Sorted, IsListing, Enumerates, TooRoomy;
      var listing := Sorted(prov, all);
      if Enumerates(prov, all) {
        SortedListing(prov, all);
      }
      var calm := AddCapacities(prov, listing);
      if !calm {
        return Crash;
      }
      ghost var start := model;
      for i := 0 to |listing|
        invariant Valid()
        invariant AnnounceFrom(model, listing, i) == AnnounceFrom(start, listing, 0)
      {
        out := Announce(listing[i], i);
        if !out.Fine? {
          return;
        }
      }
      out := AnnounceTheEnd();
    }

    method AnnounceTheEnd() returns (out: Outcome)
      requires Valid()
      modifies `state, `sender, `model, `orders, `segmentKeysCounter, resender.packets
      ensures Valid()
      ensures Res(model, out) == AnnounceEnd(old(model))
    {
      hide Endpoints.SendPacket, RxFits, OrderersOk;
      var name := EncodeStr([], MAX_NAME);
      assert name.value == FINAL_PAYLOAD;
      var key;
      out, key := SendPacket(MANAGEMENT_CHANNEL, MANAGEMENT_LANE, name.value);
      if !out.Fine? {
        return;
      }
      if key.None? {
        return Crash;
      }
      if state.Registration? {
        state := state.(lastKey := key);
      }
      model := model.(tx := model.tx.(finalKey := key), state := state);
    }
  }
}
