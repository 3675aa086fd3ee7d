/**
 What a receiver has noted on its reliable channels it has dealt with, and nothing else: on unordered
 ones it has handled it, on ordered ones it has passed it to the orderer.
 */
module Settling {
  import opened Base
  import opened SlotKeys
  import opened SlotMaps
  import opened Framing
  import opened Channels
  import opened Endpoints
  import opened Sending
  import opened Counting
  import opened Invariants
  import opened Receiving
  import opened Arriving
  import opened Opening
  import opened Systems
  import opened Guarantees
  import opened Protocol
  import opened Turns
  import opened Panics
  import opened Progress
  import O = Ordering
  import J = Joining
  import R = Resend
  import Strings
  import VarInt

  // ---- What receiving on one lane leaves alone ----

  /// The other lanes of the transfer stage have handled and pushed what they had.
  ghost predicate Elsewhere(x: Endpoint, x': Endpoint, lane: Lane) {
    && (x.state.Transfer? ==> x'.state.Transfer?)
    && (forall l: Lane :: l.stage.Tra? && l != lane ==>
          && Lookup(x'.rx.handled, l) == Lookup(x.rx.handled, l)
          && Lookup(x'.rx.pushed, l) == Lookup(x.rx.pushed, l)
          && (x.state.Transfer? ==> WindowOf(x', l) == WindowOf(x, l)))
  }

  /// Packets leave the resender, and no others change.
  ghost predicate Fewer(s: Slots<R.Buffered>, t: Slots<R.Buffered>) {
    && t.generations == s.generations && |t.values| <= |s.values|
    && (forall i :: 0 <= i < |t.values| && t.values[i].Some? ==> t.values[i] == s.values[i])
  }

  /// Nothing is sent or noted, and the noted keys stay in the buffer, except where the stage changes.
  ghost predicate Quietly(x: Endpoint, x': Endpoint) {
    && x'.tx.sent == x.tx.sent && x'.tx.wire == x.tx.wire && Fewer(x.tx.resender.slots, x'.tx.resender.slots)
    && x'.rx.listed == x.rx.listed && x'.rx.noted == x.rx.noted && x'.local == x.local && x'.tx.wrapped == x.tx.wrapped
    && ((x'.state.Transfer? == x.state.Transfer? && x'.ack == x.ack && x'.rx.dup == x.rx.dup)
        || (x.state.Registration? && x'.state.Transfer? && x'.ack == [] && x'.rx.dup == {}))
  }

  /// Besides, no further key is accepted or noted, and nothing is sent.
  ghost predicate Aside(x: Endpoint, x': Endpoint, lane: Lane) {
    && Elsewhere(x, x', lane) && x'.rx.noted == x.rx.noted && x'.rx.accepted == x.rx.accepted
    && Quietly(x, x')
  }

  lemma {:induction false} AckLocallyAside(x: Endpoint, packet: Bytes)
    ensures var x' := AckLocally(x, packet).x;
            x'.rx == x.rx && x'.state.Transfer? == x.state.Transfer? && Quietly(x, x')
    decreases |packet|
  {
    match DecodeKey(packet)
    case Got(k, rest) =>
      if k.index < |x.tx.resender.slots.generations| {
        AckLocallyAside(AckOne(x, k), rest);
      }
    case _ =>
  }

  lemma EnterAside(x: Endpoint, prov: Provider, name: Bytes, id: nat, global: nat, packet: Bytes)
    requires x.state.Registration?
    ensures Aside(x, EnterChannel(x, prov, name, id, global, packet).x, MANAGEMENT_LANE)
  {
    hide Ids.Insert;
  }

  lemma RegisterAside(x: Endpoint, prov: Provider, packet: Bytes)
    requires x.state.Registration?
    ensures Aside(x, Register(x, prov, packet).x, MANAGEMENT_LANE)
  {
    hide Strings.DecodeStr, VarInt.Decode, EnterChannel;
    var name := Strings.DecodeStr(packet, MAX_NAME);
    if name.Got? && name.value.Some? {
      var id := VarInt.Decode(name.rest, 32);
      var global := prov.ByName(name.value.value);
      if id.Got? && global.Some? {
        EnterAside(x, prov, name.value.value, id.value, global.value, packet);
      }
    }
  }

  lemma HandleOneAside(x: Endpoint, prov: Provider, lane: Lane, g: nat, packet: Bytes)
    ensures Aside(x, HandleOne(x, prov, lane, g, packet).x, lane)
  {
    hide AckLocally, Register;
    AckLocallyAside(x, packet);
    if x.state.Registration? {
      RegisterAside(x, prov, packet);
    }
  }

  lemma {:induction false} DrainAside(w: O.Window, prov: Provider, lane: Lane, g: nat, x: Endpoint)
    ensures Aside(x, O.Drain(w, Handler(prov, lane, g), Res(x, Fine)).state.x, lane)
    decreases |w.pending|
  {
    hide HandleOne, O.Drain, Handler;
    DrainOne(w, prov, lane, g, x);
    if w.start in w.pending {
      HandleOneAside(x, prov, lane, g, w.pending[w.start]);
      O.Smaller(w);
      DrainAside(w.Advance(), prov, lane, g, HandleOne(x, prov, lane, g, w.pending[w.start]).x);
    }
  }

  lemma OrdererAside(x: Endpoint, lane: Lane, w: Option<O.Window>)
    ensures Aside(x, WithOrderer(x, lane, w), lane)
  {
  }

  lemma TakenAside(x: Endpoint, lane: Lane, order: nat)
    ensures Aside(x, Taken(x, lane, order), lane)
  {
    OrdererAside(x, lane, None);
    hide WithOrderer, WindowOf;
    PushedAside(WithOrderer(x, lane, None), lane, order);
  }

  lemma PushedAside(x: Endpoint, lane: Lane, order: nat)
    ensures Aside(x, x.(rx := x.rx.(pushed := Log(x.rx.pushed, lane, order))), lane)
  {
  }

  lemma DeliverAside(x: Endpoint, prov: Provider, lane: Lane, g: nat, order: Option<nat>, payload: Bytes)
    ensures Aside(x, Deliver(x, prov, lane, g, order, payload).x, lane)
  {
    hide HandleOne, O.Drain, Handler, Taken, WithOrderer;
    HandleOneAside(x, prov, lane, g, payload);
    if order.Some? && WindowOf(x, lane).Some? {
      var w, t := WindowOf(x, lane).value, Taken(x, lane, order.value);
      TakenAside(x, lane, order.value);
      if !w.Bursts(order.value) && !w.Refuses(order.value) {
        var w' := w.Push(order.value, payload).value;
        var d := O.Drain(w', Handler(prov, lane, g), Res(t, Fine));
        DrainAside(w', prov, lane, g, t);
        OrdererAside(d.state.x, lane, Some(d.window));
      }
    }
  }

  lemma AcceptElsewhere(x: Endpoint, key: Option<Key>, lane: Lane)
    ensures var x' := Accept(x, key).x;
            && Elsewhere(x, x', lane)
            && (x'.rx.noted == x.rx.noted || (key.Some? && x'.rx.noted == x.rx.noted + {key.value}))
  {
    hide Acknowledge;
  }

  lemma WholeElsewhere(x: Endpoint, prov: Provider, lane: Lane, g: nat, h: Header, payload: Bytes)
    ensures var x', a := ReceiveWhole(x, prov, lane, g, h, payload).x, Accept(x, h.key).x;
            && Elsewhere(x, x', lane) && Quietly(a, x')
            && x'.rx.noted == a.rx.noted && x'.rx.accepted == a.rx.accepted
  {
    hide Accept, Deliver;
    AcceptElsewhere(x, h.key, lane);
    DeliverAside(Accept(x, h.key).x, prov, lane, g, h.order, payload);
  }

  lemma AsideTrans(x: Endpoint, y: Endpoint, z: Endpoint, lane: Lane)
    requires Elsewhere(x, y, lane) && Aside(y, z, lane)
    ensures Elsewhere(x, z, lane) && z.rx.noted == y.rx.noted && z.rx.accepted == y.rx.accepted && Quietly(y, z)
  {
    hide WindowOf;
  }

  lemma JoinerAside(x: Endpoint, joiner: J.Joiner, lane: Lane)
    ensures Aside(x, x.(rx := x.rx.(joiner := joiner)), lane)
  {
  }

  lemma SegmentElsewhere(x: Endpoint, prov: Provider, lane: Lane, g: nat, ch: Channel, meta: SegmentMeta, h: Header,
        payload: Bytes)
    ensures var x', a := ReceiveSegment(x, prov, lane, g, ch, meta, h, payload).x, Accept(x, h.key).x;
            && Elsewhere(x, x', lane) && Quietly(a, x')
            && x'.rx.noted == a.rx.noted && x'.rx.accepted == a.rx.accepted
  {
    hide Accept, Deliver, J.Join, Rejoin, Elsewhere, Aside;
    AcceptElsewhere(x, h.key, lane);
    var a := Accept(x, h.key);
    if a.out.Fine? {
      var j := J.Join(a.x.rx.joiner, meta, payload);
      var y := a.x.(rx := a.x.rx.(joiner := j.joiner));
      JoinerAside(a.x, j.joiner, lane);
      AsideTrans(x, a.x, y, lane);
      if j.result.Complete? && j.result.parts != [] {
        var joined := Rejoin(ch.IsOrdered(), ch.IsReliable(), j.result.parts);
        if joined.Joined? {
          DeliverAside(y, prov, lane, g, joined.order, joined.payload);
          AsideTrans(x, y, Deliver(y, prov, lane, g, joined.order, joined.payload).x, lane);
        }
      }
    }
  }

  lemma BodyElsewhere(x: Endpoint, prov: Provider, p: Packet, g: nat, ch: Channel)
    requires FrameReads(p, Frame(p)) && ch.IsOrdered() == p.order.Some? && ch.IsReliable() == p.key.Some?
    ensures var x' := ReceiveBody(x, prov, p.lane, g, ch, p.seg.Some?, DecodePrimary(Frame(p)).rest).x;
            && Elsewhere(x, x', p.lane) && Quietly(Accept(x, p.key).x, x')
            && x'.rx.noted == Accept(x, p.key).x.rx.noted && x'.rx.accepted == Accept(x, p.key).x.rx.accepted
  {
    hide Frame, DecodePrimary, DecodeSegment, ReadHeader, Accept, ReceiveWhole, ReceiveSegment, Elsewhere;
    var h := Header(p.order, p.key);
    WholeElsewhere(x, prov, p.lane, g, h, p.payload);
    if p.seg.Some? {
      SegmentElsewhere(x, prov, p.lane, g, ch, p.seg.value, h, p.payload);
    }
  }

  // ---- Packets counted by their keys ----

  /// The packets of the lane, sent in one piece, whose keys are among these.
  function NotedOn(lane: Lane, keys: set<Key>): Packet -> bool {
    (p: Packet) => p.lane == lane && p.seg.None? && p.key.Some? && p.key.value in keys
  }

  lemma {:induction false} SamePayloads(sent: seq<Packet>, f: Packet -> bool, g: Packet -> bool)
    requires forall p :: p in sent ==> f(p) == g(p)
    ensures Payloads(sent, f) == Payloads(sent, g)
  {
    if sent != [] {
      SamePayloads(sent[..|sent| - 1], f, g);
    }
  }

  lemma {:induction false} FewerPayloads(sent: seq<Packet>, f: Packet -> bool, g: Packet -> bool)
    requires forall p :: p in sent ==> f(p) ==> g(p)
    ensures Payloads(sent, f) <= Payloads(sent, g)
  {
    if sent != [] {
      FewerPayloads(sent[..|sent| - 1], f, g);
    }
  }

  lemma {:induction false} NoPayloads(sent: seq<Packet>, f: Packet -> bool)
    requires forall p :: p in sent ==> !f(p)
    ensures Payloads(sent, f) == multiset{}
  {
    if sent != [] {
      NoPayloads(sent[..|sent| - 1], f);
    }
  }

  /// Packets sent later do not count if none of them is chosen.
  lemma {:induction false} LaterPayloads(sent: seq<Packet>, sent': seq<Packet>, f: Packet -> bool)
    requires IsPrefix(sent, sent') && forall i :: |sent| <= i < |sent'| ==> !f(sent'[i])
    ensures Payloads(sent', f) == Payloads(sent, f)
    decreases |sent'|
  {
    if |sent'| == |sent| {
      assert sent' == sent;
    } else {
      LaterPayloads(sent, sent'[..|sent'| - 1], f);
    }
  }

  lemma DistinctFront(sent: seq<Packet>)
    requires sent != [] && KeysDistinct(sent)
    ensures KeysDistinct(sent[..|sent| - 1])
    ensures sent[|sent| - 1].key.Some? ==> forall q :: q in sent[..|sent| - 1] ==> q.key != sent[|sent| - 1].key
  {
  }

  /// One more key chooses one more packet.
  lemma {:induction false} OneMoreKey(sent: seq<Packet>, lane: Lane, keys: set<Key>, p: Packet)
    requires KeysDistinct(sent) && p in sent && p.lane == lane && p.seg.None? && p.key.Some? && p.key.value !in keys
    ensures Payloads(sent, NotedOn(lane, keys + {p.key.value}))
         == Payloads(sent, NotedOn(lane, keys)) + multiset{p.payload}
  {
    var n := |sent| - 1;
    var front, last := sent[..n], sent[n];
    DistinctFront(sent);
    hide KeysDistinct;
    if last == p {
      SamePayloads(front, NotedOn(lane, keys + {p.key.value}), NotedOn(lane, keys));
    } else {
      OneMoreKey(front, lane, keys, p);
    }
  }

  // ---- Noted packets have been handled ----

  /// On an unordered lane the noted packets are, payload by payload, what was handled; on an ordered
  /// one they have reached the orderer, while that is there, and no others ever have.
  ghost predicate SettledOn(sent: seq<Packet>, x: Endpoint, lane: Lane, ch: Channel) {
    if ch.IsOrdered() then (WindowOf(x, lane).Some? ==> AllPushed(sent, x, lane)) && NonePushedElse(sent, x, lane)
    else Payloads(sent, NotedOn(lane, x.rx.noted)) == multiset(Lookup(x.rx.handled, lane))
  }

  ghost predicate AllPushed(sent: seq<Packet>, x: Endpoint, lane: Lane) {
    forall p :: p in sent && NotedOn(lane, x.rx.noted)(p) ==>
      p.order.Some? && p.order.value in Lookup(x.rx.pushed, lane)
  }

  ghost predicate OrderNoted(sent: seq<Packet>, x: Endpoint, lane: Lane, o: nat) {
    exists p :: p in sent && NotedOn(lane, x.rx.noted)(p) && p.order == Some(o)
  }

  ghost predicate NonePushedElse(sent: seq<Packet>, x: Endpoint, lane: Lane) {
    forall o :: o in Lookup(x.rx.pushed, lane) ==> OrderNoted(sent, x, lane, o)
  }

  /// The orders pushed so far stay those of noted packets.
  lemma StillNoted(sent: seq<Packet>, sent': seq<Packet>, x: Endpoint, x': Endpoint, lane: Lane)
    requires NonePushedElse(sent, x, lane) && (forall p :: p in sent ==> p in sent')
    requires x.rx.noted <= x'.rx.noted && Lookup(x'.rx.pushed, lane) == Lookup(x.rx.pushed, lane)
    ensures NonePushedElse(sent', x', lane)
  {
    forall o | o in Lookup(x'.rx.pushed, lane)
      ensures OrderNoted(sent', x', lane, o)
    {
      assert OrderNoted(sent, x, lane, o);
      var p :| p in sent && NotedOn(lane, x.rx.noted)(p) && p.order == Some(o);
      assert p in sent' && NotedOn(lane, x'.rx.noted)(p);
    }
  }

  lemma OneMoreNoted(sent: seq<Packet>, x: Endpoint, x': Endpoint, p: Packet)
    requires NonePushedElse(sent, x, p.lane) && p in sent && p.seg.None? && p.key.Some? && p.order.Some?
    requires x'.rx.noted == x.rx.noted + {p.key.value}
    requires || Lookup(x'.rx.pushed, p.lane) == Lookup(x.rx.pushed, p.lane)
             || Lookup(x'.rx.pushed, p.lane) == Lookup(x.rx.pushed, p.lane) + [p.order.value]
    ensures NonePushedElse(sent, x', p.lane)
  {
    forall o | o in Lookup(x'.rx.pushed, p.lane)
      ensures OrderNoted(sent, x', p.lane, o)
    {
      if o == p.order.value {
        assert p in sent && NotedOn(p.lane, x'.rx.noted)(p);
      } else {
        assert OrderNoted(sent, x, p.lane, o);
        var q :| q in sent && NotedOn(p.lane, x.rx.noted)(q) && q.order == Some(o);
        assert q in sent && NotedOn(p.lane, x'.rx.noted)(q);
      }
    }
  }

  /// A lane of a reliable channel other than the one for acknowledgements.
  predicate OfReliable(x: Endpoint, c: nat, ch: Channel) {
    ch.IsReliable() && c != x.rx.notLocal.ack
  }

  ghost predicate SettledOk(prov: Provider, y: Endpoint, x: Endpoint) {
    forall c {:trigger Behind(prov, x, c)} ::
      Behind(prov, x, c).Some? && OfReliable(x, c, Behind(prov, x, c).value) && Clean(y.tx, Lane(Tra, c)) ==>
        SettledOn(y.tx.sent, x, Lane(Tra, c), Behind(prov, x, c).value)
  }

  /// The receiver has dealt with nothing of the transfer stage.
  ghost predicate Blank(y: Endpoint, x: Endpoint) {
    && (forall q :: q in y.tx.sent && q.lane.stage.Tra? && q.key.Some? ==> q.key.value !in x.rx.noted)
    && (forall l: Lane :: l.stage.Tra? ==> Lookup(x.rx.handled, l) == [] && Lookup(x.rx.pushed, l) == [])
  }

  lemma BlankSettled(prov: Provider, y: Endpoint, x: Endpoint)
    requires Blank(y, x)
    ensures SettledOk(prov, y, x)
  {
    forall c: nat | Behind(prov, x, c).Some?
      ensures SettledOn(y.tx.sent, x, Lane(Tra, c), Behind(prov, x, c).value)
    {
      NoPayloads(y.tx.sent, NotedOn(Lane(Tra, c), x.rx.noted));
    }
  }

  lemma RegistrationBlank(y: Endpoint, x: Endpoint)
    requires AcceptOk(y, x) && QuietOk(x) && KeysDistinct(y.tx.sent) && x.state.Registration?
    ensures Blank(y, x)
  {
    hide KeysDistinct, FromPeer, WindowsOk;
    forall q | q in y.tx.sent && q.lane.stage.Tra? && q.key.Some? && q.key.value in x.rx.noted
      ensures false
    {
      var a :| a in x.rx.accepted && a.key == q.key.value;
      KeyStage(y, x, q, a);
    }
  }

  // ---- The peer moves on ----

  lemma NotedSent(y: Endpoint, y': Endpoint, x: Endpoint, i: nat)
    requires AcceptOk(y, x) && IsPrefix(y.tx.sent, y'.tx.sent) && KeysDistinct(y'.tx.sent)
    requires i < |y'.tx.sent| && y'.tx.sent[i].key.Some? && y'.tx.sent[i].key.value in x.rx.noted
    ensures i < |y.tx.sent|
  {
    var a :| a in x.rx.accepted && a.key == y'.tx.sent[i].key.value;
    assert FromPeer(y.tx.sent, a);
    var q :| q in y.tx.sent && q.key == Some(a.key);
    var j :| 0 <= j < |y.tx.sent| && y.tx.sent[j] == q;
    assert y'.tx.sent[j] == q;
  }

  lemma PeerSettledOn(y: Endpoint, y': Endpoint, x: Endpoint, lane: Lane, ch: Channel)
    requires AcceptOk(y, x) && IsPrefix(y.tx.sent, y'.tx.sent) && KeysDistinct(y'.tx.sent)
    requires SettledOn(y.tx.sent, x, lane, ch)
    ensures SettledOn(y'.tx.sent, x, lane, ch)
  {
    hide AcceptOk, KeysDistinct;
    forall i: nat | i < |y'.tx.sent| && NotedOn(lane, x.rx.noted)(y'.tx.sent[i])
      ensures i < |y.tx.sent| && y'.tx.sent[i] in y.tx.sent
    {
      NotedSent(y, y', x, i);
      assert y'.tx.sent[i] == y.tx.sent[i];
    }
    LaterPayloads(y.tx.sent, y'.tx.sent, NotedOn(lane, x.rx.noted));
    if ch.IsOrdered() {
      PrefixIn(y.tx.sent, y'.tx.sent);
      StillNoted(y.tx.sent, y'.tx.sent, x, x, lane);
    }
  }

  lemma PeerSettled(prov: Provider, y: Endpoint, y': Endpoint, x: Endpoint)
    requires AcceptOk(y, x) && IsPrefix(y.tx.sent, y'.tx.sent) && KeysDistinct(y'.tx.sent)
    requires SettledOk(prov, y, x)
    ensures SettledOk(prov, y', x)
  {
    hide AcceptOk, KeysDistinct, SettledOn;
    PrefixIn(y.tx.sent, y'.tx.sent);
    forall c: nat | Behind(prov, x, c).Some? && OfReliable(x, c, Behind(prov, x, c).value) && Clean(y'.tx, Lane(Tra, c))
      ensures SettledOn(y'.tx.sent, x, Lane(Tra, c), Behind(prov, x, c).value)
    {
      PeerSettledOn(y, y', x, Lane(Tra, c), Behind(prov, x, c).value);
    }
  }

  // ---- The receiver takes a datagram ----

  lemma OtherSettled(sent: seq<Packet>, x: Endpoint, x': Endpoint, p: Packet, lane: Lane, ch: Channel)
    requires SettledOn(sent, x, lane, ch) && Elsewhere(x, x', p.lane) && lane.stage.Tra? && lane != p.lane
    requires x.state.Transfer? && KeysDistinct(sent) && p in sent
    requires x'.rx.noted == x.rx.noted || (p.key.Some? && x'.rx.noted == x.rx.noted + {p.key.value})
    ensures SettledOn(sent, x', lane, ch)
  {
    hide KeysDistinct, WindowOf;
    forall q | q in sent
      ensures NotedOn(lane, x'.rx.noted)(q) == NotedOn(lane, x.rx.noted)(q)
    {
      if p.key.Some? && q.key == p.key {
        SameKeySamePacket(sent, p, q);
      }
    }
    SamePayloads(sent, NotedOn(lane, x'.rx.noted), NotedOn(lane, x.rx.noted));
    if ch.IsOrdered() {
      StillNoted(sent, sent, x, x', lane);
    }
  }

  lemma OwnSettledOrdered(sent: seq<Packet>, x: Endpoint, r: Res, g: nat, p: Packet, ch: Channel)
    requires SettledOn(sent, x, p.lane, ch) && Delivered(x, r, g, p) && KeysDistinct(sent) && p in sent
    requires ch.IsOrdered() && p.order.Some? && p.key.Some? && p.seg.None? && r.x.rx.noted == x.rx.noted + {p.key.value}
    ensures SettledOn(sent, r.x, p.lane, ch)
  {
    hide KeysDistinct, DeliversRun, O.Window.Refuses, O.Window.Bursts, BufferOf, NonePushedElse;
    OneMoreNoted(sent, x, r.x, p);
    if WindowOf(r.x, p.lane).Some? {
      forall q | q in sent && NotedOn(p.lane, r.x.rx.noted)(q)
        ensures q.order.Some? && q.order.value in Lookup(r.x.rx.pushed, p.lane)
      {
        if q.key == p.key {
          SameKeySamePacket(sent, p, q);
        }
      }
    }
  }

  lemma OwnSettledUnordered(sent: seq<Packet>, x: Endpoint, r: Res, p: Packet, ch: Channel)
    requires SettledOn(sent, x, p.lane, ch) && KeysDistinct(sent) && p in sent && p.seg.None?
    requires !ch.IsOrdered() && p.key.Some? && p.key.value !in x.rx.noted
    requires r.x.rx.noted == x.rx.noted + {p.key.value}
    requires Lookup(r.x.rx.handled, p.lane) == Lookup(x.rx.handled, p.lane) + [p.payload]
    ensures SettledOn(sent, r.x, p.lane, ch)
  {
    hide KeysDistinct, Payloads, NotedOn;
    OneMoreKey(sent, p.lane, x.rx.noted, p);
  }

  lemma HandledByBuffer(x: Endpoint, x': Endpoint, c: nat, payload: Bytes)
    requires BuffersOk(x) && BuffersOk(x') && x'.rx.notLocal == x.rx.notLocal && c < |x.rx.notLocal.localToGlobal|
    requires var g := x.rx.notLocal.localToGlobal[c];
             BufferOf(x'.rx.buffers, g) == BufferOf(x.rx.buffers, g) + [payload]
    ensures Lookup(x'.rx.handled, Lane(Tra, c)) == Lookup(x.rx.handled, Lane(Tra, c)) + [payload]
  {
  }

  lemma GoodSides(e: Env, y: Endpoint, x: Endpoint)
    requires PeerOk(e, y) && Good(e, y, x)
    ensures AcceptOk(y, x) && QuietOk(x) && BuffersOk(x) && KeysDistinct(y.tx.sent) && UpInv(e.mine, x)
  {
    hide UpInv, AcceptOk, TableOk, LanesOk, QuietOk, BuffersOk, RoutedOk, JoiningOk, ReleasedOk, HandshakeOk, EnvOk;
    SelfKeys(e.theirs, y);
  }

  /// A reliable lane of the application carries payloads.
  lemma ReliablePayload(e: Env, y: Endpoint, x: Endpoint, p: Packet)
    requires PeerOk(e, y) && Good(e, y, x) && x.state.Transfer? && p in y.tx.sent && Clean(y.tx, p.lane)
    requires p.lane.stage.Tra? && p.lane.chan != x.rx.notLocal.ack
    ensures Payload(y, p)
  {
    hide PeerOk, Good, Served;
    PeerServes(e, y, p);
    SystemEntries(e, y, x);
  }

  /// The lane on which a packet arrives in transfer.
  lemma OwnSettled(e: Env, y: Endpoint, x: Endpoint, p: Packet, ch: Channel)
    requires PeerOk(e, y) && Good(e, y, x) && x.state.Transfer? && p in y.tx.sent && p.lane.stage.Tra?
    requires Behind(e.mine, x, p.lane.chan) == Some(ch) && OfReliable(x, p.lane.chan, ch) && Clean(y.tx, p.lane)
    requires ch.IsOrdered() == p.order.Some? && p.key.Some?
    requires var r := Receive(x, e.mine, Frame(p));
             && !r.x.tx.wrapped && Good(e, y, r.x) && r.x.rx.notLocal == x.rx.notLocal
             && r.x.rx.noted == Accept(x, p.key).x.rx.noted
    requires SettledOn(y.tx.sent, x, p.lane, ch)
    ensures SettledOn(y.tx.sent, Receive(x, e.mine, Frame(p)).x, p.lane, ch)
  {
    hide PeerOk, Good, Receive, Frame, Payload, CanAccept, Delivered, SettledOn, Clean, UpInv, AcceptOk, QuietOk,
         BuffersOk, KeysDistinct, AccKeys, Behind;
    var r := Receive(x, e.mine, Frame(p));
    ReliablePayload(e, y, x, p);
    InTable(e, x, p.lane.chan);
    var g := x.rx.notLocal.localToGlobal[p.lane.chan];
    ReceiveDelivers(e, y, x, p);
    GoodSides(e, y, x);
    GoodSides(e, y, r.x);
    AcceptExactly(e, x, p.key);
    AcceptNotes(x, p.key.value);
    if CanAccept(x, p.key) {
      DupIsEnough(y, x, p);
      NotedAccepted(y, x);
      CanAcceptNew(x, p.key.value);
      CleanPacket(y, p);
      if ch.IsOrdered() {
        OwnSettledOrdered(y.tx.sent, x, r, g, p, ch);
      } else {
        DeliveredUnordered(x, r, g, p);
        HandledByBuffer(x, r.x, p.lane.chan, p.payload);
        OwnSettledUnordered(y.tx.sent, x, r, p, ch);
      }
    } else {
      SameSettled(y.tx.sent, x, r.x, p.lane, ch);
    }
  }

  lemma CleanPacket(y: Endpoint, p: Packet)
    requires Clean(y.tx, p.lane) && p in y.tx.sent
    ensures p.seg.None?
  {
  }

  lemma InTable(e: Env, x: Endpoint, c: nat)
    requires Behind(e.mine, x, c).Some?
    ensures c < |x.rx.notLocal.localToGlobal|
  {
  }

  lemma CanAcceptNew(x: Endpoint, k: Key)
    requires CanAccept(x, Some(k))
    ensures k !in x.rx.dup
  {
  }

  lemma AcceptNotes(x: Endpoint, k: Key)
    ensures var r := Accept(x, Some(k)); r.x.rx.noted == if r.out.Fine? then x.rx.noted + {k} else x.rx.noted
  {
    hide Acknowledge;
  }

  lemma DeliveredUnordered(x: Endpoint, r: Res, g: nat, p: Packet)
    requires Delivered(x, r, g, p) && p.order.None?
    ensures BufferOf(r.x.rx.buffers, g) == BufferOf(x.rx.buffers, g) + [p.payload]
  {
    hide DeliversRun;
  }

  lemma SameSettled(sent: seq<Packet>, x: Endpoint, x': Endpoint, lane: Lane, ch: Channel)
    requires SettledOn(sent, x, lane, ch) && SameReceipts(x, x') && x'.rx.noted == x.rx.noted
    ensures SettledOn(sent, x', lane, ch)
  {
    if ch.IsOrdered() {
      StillNoted(sent, sent, x, x', lane);
    }
  }

  /// Any datagram in transfer.
  lemma TransferSettled(e: Env, y: Endpoint, x: Endpoint, p: Packet)
    requires PeerOk(e, y) && Good(e, y, x) && x.state.Transfer? && p in y.tx.sent && SettledOk(e.mine, y, x)
    requires var r := Receive(x, e.mine, Frame(p)); !r.x.tx.wrapped && Good(e, y, r.x)
    ensures SettledOk(e.mine, y, Receive(x, e.mine, Frame(p)).x)
  {
    hide PeerOk, Good, ReceiveBody, Frame, FrameReads, Taking, DecodeSegment, ReadHeader, DecodePrimary, Parse,
         LaneChannel, PacketFits, Elsewhere, Accept, SettledOn, Clean, Behind;
    PacketKind(e, y, p);
    FrameRoundTrip(p);
    PrimaryRead(p);
    var r := Receive(x, e.mine, Frame(p));
    var g := x.rx.notLocal.GlobalId(Tra, p.lane.chan);
    if g.Some? && e.mine.ById(g.value).Some? {
      var ch := e.mine.ById(g.value).value;
      TakingFrom(e, y, x, p, g.value, ch);
      TakingParts(e, y, x, p, g.value, ch);
      BodyElsewhere(x, e.mine, p, g.value, ch);
      AcceptElsewhere(x, p.key, p.lane);
      SameKind(e, y, x, p.lane, g.value, ch);
      StaysInTransfer(x, r.x, p.lane);
      TransferTable(e, y, x, r.x);
      forall c: nat | Behind(e.mine, r.x, c).Some? && OfReliable(r.x, c, Behind(e.mine, r.x, c).value)
                      && Clean(y.tx, Lane(Tra, c))
        ensures SettledOn(y.tx.sent, r.x, Lane(Tra, c), Behind(e.mine, r.x, c).value)
      {
        SameBehind(e, x, r.x, c);
        if Lane(Tra, c) == p.lane {
          OwnSettled(e, y, x, p, ch);
        } else {
          OtherSettled(y.tx.sent, x, r.x, p, Lane(Tra, c), Behind(e.mine, x, c).value);
        }
      }
    }
  }

  lemma StaysInTransfer(x: Endpoint, x': Endpoint, lane: Lane)
    requires Elsewhere(x, x', lane) && x.state.Transfer?
    ensures x'.state.Transfer?
  {
  }

  lemma SameBehind(e: Env, x: Endpoint, x': Endpoint, c: nat)
    requires x'.rx.notLocal == x.rx.notLocal
    ensures Behind(e.mine, x', c) == Behind(e.mine, x, c)
  {
  }

  /// The table does not change in transfer.
  lemma TransferTable(e: Env, y: Endpoint, x: Endpoint, x': Endpoint)
    requires PeerOk(e, y) && Good(e, y, x) && Good(e, y, x') && x.state.Transfer? && x'.state.Transfer?
    ensures x'.rx.notLocal == x.rx.notLocal
  {
    hide PeerOk, Good;
    Complete(e, y, x);
    Complete(e, y, x');
  }

  lemma StillBlank(y: Endpoint, x: Endpoint, x': Endpoint, p: Packet)
    requires Blank(y, x) && Elsewhere(x, x', p.lane) && p.lane.stage.Reg? && KeysDistinct(y.tx.sent) && p in y.tx.sent
    requires x'.rx.noted == x.rx.noted || (p.key.Some? && x'.rx.noted == x.rx.noted + {p.key.value})
    ensures Blank(y, x')
  {
    hide KeysDistinct, WindowOf;
    forall q | q in y.tx.sent && q.lane.stage.Tra? && q.key.Some?
      ensures q.key.value !in x'.rx.noted
    {
      if q.key == p.key {
        SameKeySamePacket(y.tx.sent, p, q);
      }
    }
  }

  /// A datagram of the registration stage.
  lemma RegistrationStays(e: Env, y: Endpoint, x: Endpoint, p: Packet)
    requires PeerOk(e, y) && Good(e, y, x) && Speculate(x, p.lane.chan) == x && x.state.Registration?
    requires p in y.tx.sent && Blank(y, x)
    ensures Blank(y, Receive(x, e.mine, Frame(p)).x)
  {
    hide PeerOk, Good, ReceiveBody, Frame, FrameReads, Speculate, Taking, DecodeSegment, ReadHeader, DecodePrimary,
         Parse, LaneChannel, PacketFits, Elsewhere, Accept, Blank;
    PacketKind(e, y, p);
    FrameRoundTrip(p);
    PrimaryRead(p);
    var r := Receive(x, e.mine, Frame(p));
    var g := x.rx.notLocal.GlobalId(Reg, p.lane.chan);
    if g.Some? && ChannelOf(Reg, p.lane.chan, g.value, e.mine).Some? {
      var ch := ChannelOf(Reg, p.lane.chan, g.value, e.mine).value;
      TakingFrom(e, y, x, p, g.value, ch);
      TakingParts(e, y, x, p, g.value, ch);
      BodyElsewhere(x, e.mine, p, g.value, ch);
      AcceptElsewhere(x, p.key, p.lane);
      StillBlank(y, x, r.x, p);
    }
  }

  lemma SpeculateBlank(y: Endpoint, x: Endpoint, chan: nat)
    requires Blank(y, x)
    ensures Blank(y, Speculate(x, chan))
  {
  }

  lemma SpeculateOnce(x: Endpoint, prov: Provider, p: Packet)
    requires FrameReads(p, Frame(p))
    ensures var z := Speculate(x, p.lane.chan);
            (z == x || z.state.Transfer?) && Receive(z, prov, Frame(p)) == Receive(x, prov, Frame(p))
  {
    hide Frame, FrameReads, ReceiveBody, DecodePrimary, EnterTransfer;
    PrimaryRead(p);
    assert EnterTransfer(x).state.Transfer? by {
      EntersTransfer(x);
    }
  }

  lemma EntersTransfer(x: Endpoint)
    ensures EnterTransfer(x).state.Transfer?
  {
  }

  /// Any datagram of the peer in any stage.
  lemma ReceiveSettled(e: Env, y: Endpoint, x: Endpoint, p: Packet)
    requires PeerOk(e, y) && Good(e, y, x) && p in y.tx.sent && SettledOk(e.mine, y, x)
    requires var r := Receive(x, e.mine, Frame(p)); !r.x.tx.wrapped && Good(e, y, r.x)
    ensures SettledOk(e.mine, y, Receive(x, e.mine, Frame(p)).x)
  {
    hide PeerOk, Good, Receive, Frame, FrameReads, Speculate, SettledOk, Blank, UpInv, AcceptOk, QuietOk, BuffersOk,
         KeysDistinct, LaneChannel, PacketFits;
    PacketKind(e, y, p);
    FrameRoundTrip(p);
    SpeculateOnce(x, e.mine, p);
    SpeculateGood(e, y, x, p);
    GoodSides(e, y, x);
    var z, r := Speculate(x, p.lane.chan), Receive(x, e.mine, Frame(p));
    if x.state.Registration? {
      RegistrationBlank(y, x);
      SpeculateBlank(y, x, p.lane.chan);
      BlankSettled(e.mine, y, z);
    } else {
      SpeculateNot(x, p.lane.chan);
    }
    if z.state.Transfer? {
      TransferSettled(e, y, z, p);
    } else {
      RegistrationStays(e, y, x, p);
      BlankSettled(e.mine, y, r.x);
    }
  }

  lemma SpeculateNot(x: Endpoint, chan: nat)
    requires x.state.Transfer?
    ensures Speculate(x, chan) == x
  {
  }

  // ---- Every run ----

  lemma SameRxSettled(prov: Provider, y: Endpoint, x: Endpoint, x': Endpoint)
    requires SettledOk(prov, y, x) && x'.rx == x.rx
    ensures SettledOk(prov, y, x')
  {
    hide Clean;
    forall c: nat
      ensures Behind(prov, x', c) == Behind(prov, x, c)
      ensures Behind(prov, x, c).Some? && SettledOn(y.tx.sent, x, Lane(Tra, c), Behind(prov, x, c).value) ==>
                SettledOn(y.tx.sent, x', Lane(Tra, c), Behind(prov, x, c).value)
    {
    }
  }

  lemma TakesSettled(e: Env, y: Endpoint, x: Endpoint, datagram: Bytes)
    requires PeerOk(e, y) && Good(e, y, x) && datagram in y.tx.wire && SettledOk(e.mine, y, x)
    requires var r := Receive(x, e.mine, datagram); !r.x.tx.wrapped
    ensures SettledOk(e.mine, y, Receive(x, e.mine, datagram).x)
  {
    hide PeerOk, Good, Receive, Frame, SettledOk, Extends;
    var p := OnTheWire(e, y, datagram);
    ReceiveGood(e, y, x, datagram);
    ReceiveSettled(e, y, x, p);
  }

  lemma SendsSameRx(x: Endpoint, prov: Provider, g: nat, payload: Bytes)
    ensures AppSend(x, prov, g, payload).x.rx == x.rx
  {
    hide SendPacket;
  }

  lemma TicksSameRx(x: Endpoint, delta: nat)
    ensures Tick(x, delta).x.rx == x.rx
  {
    hide Flush;
  }

  lemma ActSettled(e: Env, y: Endpoint, n: Node, peer: Node, a: Action)
    requires PeerOk(e, y) && Good(e, y, n.x) && peer.x == y && SettledOk(e.mine, y, n.x) && !a.Opens?
    requires Enabled(e.mine, n, peer, a) && !Act(e.mine, n, a).x.tx.wrapped
    ensures SettledOk(e.mine, y, Act(e.mine, n, a).x)
  {
    hide PeerOk, Good, Receive, Tick, AppSend, SettledOk, AppChannel, Enumerates;
    match a
    case Takes(datagram) => TakesSettled(e, y, n.x, datagram);
    case Ticks(delta) =>
      TicksSameRx(n.x, delta);
      SameRxSettled(e.mine, y, n.x, Act(e.mine, n, a).x);
    case Sends(global, payload) =>
      SendsSameRx(n.x, e.mine, global, payload);
      SameRxSettled(e.mine, y, n.x, Act(e.mine, n, a).x);
  }

  /// Nothing that was sent is forgotten.
  lemma ActSends(e: Env, m: Node, n: Node, a: Action)
    requires EnvOk(e) && NodeOk(e.theirs, m) && NodeOk(e.mine, n) && RecvInv(e.mine, m.x, n.x) && CountsOk(n)
    requires Enabled(e.mine, n, m, a) && !Act(e.mine, n, a).x.tx.wrapped
    ensures IsPrefix(n.x.tx.sent, Act(e.mine, n, a).x.tx.sent)
  {
    hide Act, SelfInv, UpInv, RecvInv, Untouched, EnvOk, Enumerates, AppChannel, Counted, Tallied;
    if a.Opens? {
      assert n.x.tx.sent == [];
    } else {
      UpActs(e, m, n, a);
      ExtendsSent(n.x, Act(e.mine, n, a).x);
    }
  }

  lemma ExtendsSent(x: Endpoint, x': Endpoint)
    requires Extends(x, x')
    ensures IsPrefix(x.tx.sent, x'.tx.sent)
  {
  }

  /// What a sound system has to offer about one side.
  lemma SoundSide(c: Config, s: Sys, side: Side)
    requires c.Ok() && Sound(c, s)
    ensures EnvOk(c.EnvOf(side)) && PeerOk(c.EnvOf(side), s.At(side.Other()).x)
    ensures NodeOk(c.At(side), s.At(side)) && NodeOk(c.At(side.Other()), s.At(side.Other()))
    ensures RecvInv(c.At(side), s.At(side.Other()).x, s.At(side).x)
    ensures AcceptOk(s.At(side.Other()).x, s.At(side).x) && QuietOk(s.At(side).x)
    ensures KeysDistinct(s.At(side.Other()).x.tx.sent)
  {
    hide SelfInv, RecvInv, UpInv, Untouched, EnvOk, AcceptOk, QuietOk, KeysDistinct, NodeOk, PeerOk;
    EnvHolds(c, side);
    PeerHolds(c, s, side);
    SidePair(c, s, side);
    SidePair(c, s, side.Other());
    SelfKeys(c.At(side.Other()), s.At(side.Other()).x);
    RecvQuiet(c.At(side), s.At(side.Other()).x, s.At(side).x);
    BothOk(c, s, side);
  }

  lemma BothOk(c: Config, s: Sys, side: Side)
    requires Sound(c, s)
    ensures NodeOk(c.At(side), s.At(side)) && NodeOk(c.At(side.Other()), s.At(side.Other()))
  {
    hide NodeOk, RecvInv;
  }

  lemma RecvQuiet(prov: Provider, y: Endpoint, x: Endpoint)
    requires RecvInv(prov, y, x)
    ensures AcceptOk(y, x) && QuietOk(x)
  {
    hide AcceptOk, TableOk, LanesOk, QuietOk, BuffersOk, RoutedOk, JoiningOk, ReleasedOk, HandshakeOk;
  }

  lemma OwnStepSettled(c: Config, s: Sys, side: Side, a: Action)
    requires c.Ok() && SysInv(c, s) && Sound(c, s) && Sound(c, Next(c, s, Event(side, a)))
    requires Enabled(c.At(side), s.At(side), s.At(side.Other()), a) && Unwrapped(Next(c, s, Event(side, a)))
    requires SettledOk(c.At(side), s.At(side.Other()).x, s.At(side).x)
    ensures var s' := Next(c, s, Event(side, a)); SettledOk(c.At(side), s'.At(side.Other()).x, s'.At(side).x)
  {
    hide Sound, Act, SettledOk, PeerOk, Good, NodeOk, RecvInv, AcceptOk, QuietOk, KeysDistinct, Enabled, EnvOk,
         CountsOk;
    var s' := Next(c, s, Event(side, a));
    SoundSide(c, s, side);
    if a.Opens? {
      SoundSide(c, s', side);
      OpensRegistration(c.At(side), s.At(side), s.At(side.Other()), a);
      RegistrationBlank(s'.At(side.Other()).x, s'.At(side).x);
      BlankSettled(c.At(side), s'.At(side.Other()).x, s'.At(side).x);
    } else {
      Running(c.At(side), s.At(side), s.At(side.Other()), a);
      UpIsGood(c, s, side);
      StillUnwrapped(s', side);
      ActSettled(c.EnvOf(side), s.At(side.Other()).x, s.At(side), s.At(side.Other()), a);
    }
  }

  lemma OpensRegistration(prov: Provider, n: Node, peer: Node, a: Action)
    requires CountsOk(n) && a.Opens? && Enabled(prov, n, peer, a)
    ensures Act(prov, n, a).x.state.Registration?
  {
    hide Act, CountsOk;
    StillRegistration(prov, n, a.all);
  }

  lemma PeerStepSettled(c: Config, s: Sys, side: Side, a: Action)
    requires c.Ok() && SysInv(c, s) && Sound(c, s) && Sound(c, Next(c, s, Event(side.Other(), a)))
    requires Enabled(c.At(side.Other()), s.At(side.Other()), s.At(side), a)
    requires Unwrapped(Next(c, s, Event(side.Other(), a)))
    requires SettledOk(c.At(side), s.At(side.Other()).x, s.At(side).x)
    ensures var s' := Next(c, s, Event(side.Other(), a)); SettledOk(c.At(side), s'.At(side.Other()).x, s'.At(side).x)
  {
    hide Sound, Act, SettledOk, PeerOk, NodeOk, RecvInv, AcceptOk, QuietOk, KeysDistinct, Enabled, EnvOk, CountsOk;
    var s' := Next(c, s, Event(side.Other(), a));
    SoundSide(c, s, side);
    SoundSide(c, s, side.Other());
    SoundSide(c, s', side);
    StillUnwrapped(s', side.Other());
    ActSends(c.EnvOf(side.Other()), s.At(side), s.At(side.Other()), a);
    PeerSettled(c.At(side), s.At(side.Other()).x, s'.At(side.Other()).x, s.At(side).x);
  }

  lemma StartSettled(c: Config, side: Side)
    ensures SettledOk(c.At(side), Start().At(side.Other()).x, Start().At(side).x)
  {
    BlankSettled(c.At(side), Start().At(side.Other()).x, Start().At(side).x);
  }

  /// On reliable channels the receiver has dealt with every packet it has noted, in every reachable
  /// state, and has handled or passed to the orderer no other.
  lemma {:induction false} RunSettled(c: Config, run: seq<Sys>, events: seq<Event>, i: nat, side: Side)
    requires c.Ok() && IsRun(c, run, events) && i < |run| && Unwrapped(run[i])
    ensures SettledOk(c.At(side), run[i].At(side.Other()).x, run[i].At(side).x)
  {
    hide SysInv, Sound, SettledOk, Enabled, Act, Unwrapped, Forward;
    if i == 0 {
      StartSettled(c, side);
    } else {
      var e := events[i - 1];
      assert run[i] == Next(c, run[i - 1], e);
      RunSound(c, run, events, i - 1);
      StepKeeps(c, run[i - 1], e);
      Before(run[i - 1], run[i]);
      UnwrappedSound(c, run[i - 1]);
      UnwrappedSound(c, run[i]);
      RunSettled(c, run, events, i - 1, side);
      if e.side == side {
        OwnStepSettled(c, run[i - 1], side, e.action);
      } else {
        PeerStepSettled(c, run[i - 1], side, e.action);
      }
    }
  }
}
