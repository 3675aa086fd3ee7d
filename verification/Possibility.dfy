/**
 The steps of a run that works: opening, the announcements taken one by one, their acknowledgements
 sent and taken, and a first payload sent and delivered.
 */
module Possibility {
  import opened Base
  import opened SlotKeys
  import opened SlotMaps
  import opened Framing
  import opened Channels
  import opened Endpoints
  import opened Sending
  import opened Acknowledging
  import opened Counting
  import opened Invariants
  import opened Receiving
  import opened Registering
  import opened Delivering
  import opened Arriving
  import opened Opening
  import opened Systems
  import opened Guarantees
  import opened Protocol
  import opened Turns
  import opened Panics
  import opened Progress
  import opened Settling
  import opened Conserving
  import opened Strings
  import O = Ordering
  import R = Resend
  import VarInt

  // ---- Sending one packet ----

  /// Only announcements are stored, and no clock has run yet.
  ghost predicate Timeless(s: Slots<R.Buffered>) {
    forall i :: 0 <= i < |s.values| && s.values[i].Some? ==>
      s.values[i].value.time == 0 && s.values[i].value.interval == MANAGEMENT_CHANNEL.reliability.value.interval
  }

  /// There is room in the resender, and no counter is near its end.
  ghost predicate Easy(tx: Tx) {
    && Counted(tx) && !tx.wrapped && |tx.sent| < U32 - 1
    && tx.resender.slots.Len() < tx.resender.capacity
  }

  lemma EasySlots(tx: Tx)
    requires Easy(tx)
    ensures tx.resender.slots.Valid() && !tx.resender.Exhausted() && !tx.resender.slots.Exhausted()
    ensures tx.resender.slots.NextIndex() < U32 - 1
  {
  }

  lemma PutLen<T>(s: Slots<T>, v: T)
    requires s.Valid() && !s.Exhausted()
    ensures s.Put(v).Len() == s.Len() + 1
  {
  }

  lemma PutTimeless(s: Slots<R.Buffered>, b: R.Buffered)
    requires s.Valid() && Timeless(s) && b.time == 0 && b.interval == MANAGEMENT_CHANNEL.reliability.value.interval
    ensures Timeless(s.Put(b))
  {
  }

  /// A packet that goes out, with its key on a reliable channel.
  ghost predicate WentOut(tx: Tx, t: Tx, ch: Channel, p: Packet) {
    && t.sent == tx.sent + [p] && Frame(p) in t.wire && (p.key.Some? <==> ch.IsReliable())
    && IsPrefix(tx.wire, t.wire) && !t.wrapped && Counted(t)
    && (ch.IsReliable() ==>
          var r := ch.reliability.value;
          t.resender.slots == tx.resender.slots.Put(R.Buffered(Frame(p), r.interval, r.attempts, 0)))
    && t.resender.capacity == tx.resender.capacity
    && t.resender.slots.Len() == tx.resender.slots.Len() + (if ch.IsReliable() then 1 else 0)
  }

  lemma RealGoesOut(tx: Tx, ch: Channel, p: Packet)
    requires Easy(tx) && p.lane.chan < NULL_ID && p.key.None?
    requires p.seg.Some? ==> p.seg.value.segment < U16 && p.seg.value.count <= U16
    ensures var r := SendReal(tx, ch, p); r.out.Fine? && WentOut(tx, r.tx, ch, p.(key := r.key))
    ensures SendReal(tx, ch, p).tx.submitted == tx.submitted && SendReal(tx, ch, p).tx.orders == tx.orders
    ensures SendReal(tx, ch, p).tx.messages == tx.messages
  {
    EasySlots(tx);
    SendRealUpward(tx, ch, p);
    hide Frame, Counted, Slots.Valid, Slots.Exhausted, Slots.NextIndex, Slots.NextKey, Slots.Put, Slots.Len;
    if ch.IsReliable() {
      var q := p.(key := Some(tx.resender.slots.NextKey()));
      var b := R.Buffered(Frame(q), ch.reliability.value.interval, ch.reliability.value.attempts, 0);
      PutLen(tx.resender.slots, b);
    }
  }

  lemma SendGoesOut(tx: Tx, ch: Channel, lane: Lane, payload: Bytes)
    requires Easy(tx) && lane.chan < NULL_ID && |payload| <= MAX_NON_SEGMENTED_PAYLOAD
    requires ch.IsOrdered() ==> tx.orders.Has(lane) && tx.orders.At(lane) < U32 - 1
    ensures var r := SendPacket(tx, ch, lane, payload);
            var p := Packet(lane, None, if ch.IsOrdered() then Some(tx.orders.At(lane)) else None, r.key, payload);
            && r.out.Fine? && WentOut(tx, r.tx, ch, p)
            && r.tx.submitted == Log(tx.submitted, lane, payload)
            && r.tx.orders == (if ch.IsOrdered() then tx.orders.With(lane, tx.orders.At(lane) + 1) else tx.orders)
            && r.tx.messages == tx.messages
  {
    SubmitUpward(tx, ch, lane, payload);
    hide Frame, Counted, SendReal;
    var t := Submit(tx, ch, lane, payload);
    RealGoesOut(t, ch, Packet(lane, None, if ch.IsOrdered() then Some(tx.orders.At(lane)) else None, None, payload));
  }

  // ---- Opening ----

  /// The `i`-th packet is the announcement with order `i`, and it is on the wire.
  ghost predicate Announces(tx: Tx, i: nat)
    requires i < |tx.sent|
  {
    var p := tx.sent[i];
    p.lane == MANAGEMENT_LANE && p.order == Some(i) && p.seg.None? && p.key.Some? && Frame(p) in tx.wire
  }

  /// The first `k` announcements have been sent and nothing else.
  ghost predicate AnnouncedTo(tx: Tx, k: nat) {
    && Counted(tx) && !tx.wrapped && Timeless(tx.resender.slots)
    && |tx.sent| == k && tx.resender.slots.Len() == k && tx.orders.management == k && tx.messages == []
    && (forall i: nat :: i < k ==> Announces(tx, i))
  }

  lemma CountedValid(tx: Tx)
    requires Counted(tx)
    ensures tx.resender.slots.Valid()
  {
  }

  lemma OneAnnounced(tx: Tx, k: nat, payload: Bytes)
    requires AnnouncedTo(tx, k) && k < tx.resender.capacity && k < U32 - 1 && |payload| <= MAX_NON_SEGMENTED_PAYLOAD
    ensures var r := SendPacket(tx, MANAGEMENT_CHANNEL, MANAGEMENT_LANE, payload);
            && r.out.Fine? && r.key.Some? && AnnouncedTo(r.tx, k + 1) && r.tx.resender.capacity == tx.resender.capacity
            && r.tx.sent[k].key == r.key
  {
    hide Counted, Timeless, Frame, SendPacket, Slots.Len, Slots.Put, Slots.Valid;
    SendGoesOut(tx, MANAGEMENT_CHANNEL, MANAGEMENT_LANE, payload);
    var t := SendPacket(tx, MANAGEMENT_CHANNEL, MANAGEMENT_LANE, payload).tx;
    CountedValid(tx);
    var r := MANAGEMENT_CHANNEL.reliability.value;
    PutTimeless(tx.resender.slots, R.Buffered(Frame(t.sent[k]), r.interval, r.attempts, 0));
    forall i: nat | i < k + 1
      ensures Announces(t, i)
    {
      if i < k {
        assert Announces(tx, i) && t.sent[i] == tx.sent[i];
        PrefixIn(tx.wire, t.wire);
      }
    }
  }

  lemma {:induction false} AnnounceFine(x: Endpoint, listing: seq<Entry>, i: nat)
    requires i <= |listing| < MANAGEMENT_ID_REGISTRATION && |x.local.localToGlobal| == i
    requires AnnouncedTo(x.tx, i) && |listing| < x.tx.resender.capacity
    requires forall j :: 0 <= j < |listing| ==> |listing[j].name| <= MAX_NAME
    ensures var r := AnnounceFrom(x, listing, i);
            r.out.Fine? && AnnouncedTo(r.x.tx, |listing|) && r.x.tx.resender.capacity == x.tx.resender.capacity
    decreases |listing| - i
  {
    hide SendPacket, RegistrationPayload, AnnouncedTo;
    if i < |listing| {
      var e := listing[i];
      RegistrationShort(e.name, i);
      OneAnnounced(x.tx, i, RegistrationPayload(e.name, i));
      var s := SendPacket(x.tx, MANAGEMENT_CHANNEL, MANAGEMENT_LANE, RegistrationPayload(e.name, i));
      CounterLater(s.tx, i, i + 1);
      AnnounceFine(AnnounceOne(x, e, i).x, listing, i + 1);
    }
  }

  lemma CounterLater(tx: Tx, i: nat, k: nat)
    requires AnnouncedTo(tx, k)
    ensures AnnouncedTo(tx.(orders := tx.orders.Set(i, 0, 0)), k)
  {
    hide Timeless, Frame, Slots.Len, Counted;
    var t := tx.(orders := tx.orders.Set(i, 0, 0));
    CounterOnward(tx, i);
    forall j: nat | j < k
      ensures Announces(t, j)
    {
      assert Announces(tx, j);
    }
  }

  lemma EndFine(x: Endpoint, k: nat)
    requires AnnouncedTo(x.tx, k) && k < x.tx.resender.capacity && k < U32 - 1
    ensures var r := AnnounceEnd(x);
            r.out.Fine? && AnnouncedTo(r.x.tx, k + 1) && r.x.tx.resender.capacity == x.tx.resender.capacity
            && r.x.tx.finalKey == r.x.tx.sent[k].key
  {
    hide SendPacket, Timeless, Frame, Slots.Len, Counted;
    OneAnnounced(x.tx, k, FINAL_PAYLOAD);
    var t, t' := SendPacket(x.tx, MANAGEMENT_CHANNEL, MANAGEMENT_LANE, FINAL_PAYLOAD).tx, AnnounceEnd(x).x.tx;
    SameCounted(t, t');
    forall j: nat | j < k + 1
      ensures Announces(t', j)
    {
      assert Announces(t, j);
    }
  }

  lemma SameCounted(tx: Tx, t: Tx)
    requires Counted(tx) && t == tx.(finalKey := t.finalKey)
    ensures Counted(t)
  {
  }

  /// Opening works when names are short and the resender holds all announcements.
  lemma OpenFine(prov: Provider, listing: seq<Entry>)
    requires |listing| < MANAGEMENT_ID_REGISTRATION && |listing| < AddedCapacity(prov, listing) < USIZE
    requires forall j :: 0 <= j < |listing| ==> |listing[j].name| <= MAX_NAME
    ensures var r := Initialize(NewEndpoint(), prov, listing);
            && r.out.Fine? && AnnouncedTo(r.x.tx, |listing| + 1)
            && r.x.tx.resender.capacity == AddedCapacity(prov, listing)
            && r.x.tx.finalKey == r.x.tx.sent[|listing|].key
  {
    StartAnnounced(prov, listing);
    hide AnnounceFrom, AnnounceEnd, AnnouncedTo;
    var y := WithListing(NewEndpoint(), prov, listing);
    AnnounceFine(y, listing, 0);
    EndFine(AnnounceFrom(y, listing, 0).x, |listing|);
  }

  lemma StartAnnounced(prov: Provider, listing: seq<Entry>)
    ensures AnnouncedTo(WithListing(NewEndpoint(), prov, listing).tx, 0)
  {
  }

  // ---- Taking the announcements ----

  /// The keys of the first `k` packets.
  function FrontKeys(sent: seq<Packet>, k: nat): seq<Key>
    requires k <= |sent| && forall i :: 0 <= i < k ==> sent[i].key.Some?
  {
    seq(k, i requires 0 <= i < k => sent[i].key.value)
  }

  /// The first `k` announcements of the peer have been taken and noted.
  ghost predicate Heard(e: Env, y: Endpoint, x: Endpoint, k: nat) {
    && k <= |y.tx.sent| && (forall i :: 0 <= i < k ==> y.tx.sent[i].key.Some?)
    && x.state == Registration(k == |y.tx.listing| + 1, x.tx.finalKey)
    && |Lookup(x.rx.handled, MANAGEMENT_LANE)| == k
    && WindowOf(x, MANAGEMENT_LANE) == Some(O.Window(k, map[], MANAGEMENT_CHANNEL.capacity.value))
    && x.ack == EncodeKeys(FrontKeys(y.tx.sent, k))
    && (forall a :: a in x.rx.accepted ==> a.key in FrontKeys(y.tx.sent, k))
    && OrderersReady(e, x) && x.rx.joiner == map[]
  }

  /// Every ordered channel of the table has a new orderer.
  ghost predicate OrderersReady(e: Env, x: Endpoint) {
    forall c {:trigger Behind(e.mine, x, c)} ::
      Behind(e.mine, x, c).Some? && Behind(e.mine, x, c).value.IsOrdered() ==>
        WindowOf(x, Lane(Tra, c)) == Some(O.NewWindow(Behind(e.mine, x, c).value.capacity.value))
  }

  lemma NothingHeard(e: Env, y: Endpoint, x: Endpoint)
    requires Untouched(x) && x.ack == [] && x.tx.finalKey.Some?
    ensures Heard(e, y, x, 0)
  {
    assert EncodeKeys(FrontKeys(y.tx.sent, 0)) == [];
  }

  lemma {:induction false} KeysLength(ks: seq<Key>)
    requires forall k :: k in ks ==> Fits(k)
    ensures |EncodeKeys(ks)| <= 10 * |ks|
    decreases |ks|
  {
    if ks != [] {
      assert ks[0] in ks;
      KeyLength(ks[0]);
      KeysLength(ks[1..]);
    }
  }

  lemma OneMoreFront(sent: seq<Packet>, k: nat)
    requires k < |sent| && forall i :: 0 <= i < k + 1 ==> sent[i].key.Some?
    requires forall i :: 0 <= i < k + 1 ==> Fits(sent[i].key.value)
    ensures FrontKeys(sent, k + 1) == FrontKeys(sent, k) + [sent[k].key.value]
    ensures EncodeKeys(FrontKeys(sent, k + 1)) == EncodeKeys(FrontKeys(sent, k)) + EncodeKey(sent[k].key.value)
    ensures |EncodeKeys(FrontKeys(sent, k + 1))| <= 10 * (k + 1)
  {
    assert FrontKeys(sent, k + 1) == FrontKeys(sent, k) + [sent[k].key.value];
    EncodeKeysSnoc(FrontKeys(sent, k), sent[k].key.value);
    KeysLength(FrontKeys(sent, k + 1));
  }

  /// A key of a later packet is not among the first.
  lemma LaterKey(sent: seq<Packet>, k: nat, j: nat)
    requires KeysDistinct(sent) && k <= j < |sent| && sent[j].key.Some?
    requires forall i :: 0 <= i < k ==> sent[i].key.Some?
    ensures sent[j].key.value !in FrontKeys(sent, k)
  {
  }

  /// The acknowledgement fits in the buffer.
  lemma AcceptFits(x: Endpoint, k: Key)
    requires k !in x.rx.dup && x.local.ack != NULL_ID && |x.ack + EncodeKey(k)| <= MAX_NON_SEGMENTED_PAYLOAD
    ensures var a := Accepted(StageOf(x.state), k);
            Accept(x, Some(k))
            == Res(x.(ack := x.ack + EncodeKey(k),
                      rx := Noted(x.rx.(dup := x.rx.dup + {k}, accepted := x.rx.accepted + [a]), a)), Fine)
  {
    hide EncodeKey;
  }

  lemma NewToReceiver(e: Env, y: Endpoint, x: Endpoint, k: nat, j: nat)
    requires PeerOk(e, y) && Good(e, y, x) && k <= j < |y.tx.sent| && y.tx.sent[j].key.Some?
    requires forall i :: 0 <= i < k ==> y.tx.sent[i].key.Some?
    requires forall a :: a in x.rx.accepted ==> a.key in FrontKeys(y.tx.sent, k)
    ensures y.tx.sent[j].key.value !in x.rx.dup
  {
    hide PeerOk, Good, KeysDistinct, FrontKeys, FromPeer, QuietOk, BuffersOk, UpInv;
    GoodSides(e, y, x);
    LaterKey(y.tx.sent, k, j);
  }

  /// The receiver knows the name that is announced.
  lemma KnownFine(e: Env, y: Endpoint, x: Endpoint, packet: Bytes)
    requires PeerOk(e, y) && TableOk(e.mine, y, x) && x.state.Registration? && NextAnnouncement(y, x, packet)
    requires var k := |Lookup(x.rx.handled, MANAGEMENT_LANE)|;
             k < |y.tx.listing| && y.tx.listing[k].name in e.mine.names
    ensures Register(x, e.mine, packet).out.Fine?
  {
    hide PeerOk, DecodeStr, VarInt.Decode, VarInt.Encode, ListingOk, RegistrationPayload, EncodeStr, Appended;
    var k := |Lookup(x.rx.handled, MANAGEMENT_LANE)|;
    AnnouncementAt(e, y, k);
    EnvParts(e, y);
    AnnouncementReads(y.tx.listing[k].name, k);
    TableLength(e, y, x);
    KnownGlobal(e.mine, y.tx.listing[k].name);
  }

  lemma KnownGlobal(prov: Provider, name: Bytes)
    requires prov.WellFormed() && name in prov.names
    ensures prov.ByName(name) == Some(prov.names[name]) && prov.ById(prov.names[name]).Some?
  {
  }

  /// A packet in its turn, alone in the orderer.
  lemma DrainAlone(prov: Provider, lane: Lane, g: nat, x: Endpoint, k: nat, packet: Bytes, capacity: nat)
    requires k < USIZE - 1 && HandleOne(x, prov, lane, g, packet).out.Fine?
    ensures O.Drain(O.Window(k, map[k := packet], capacity), Handler(prov, lane, g), Res(x, Fine))
         == O.Drained(O.Window(k + 1, map[], capacity), Res(HandleOne(x, prov, lane, g, packet).x, Fine), true)
  {
    hide HandleOne, Handler;
    var w := O.Window(k, map[k := packet], capacity);
    DrainOne(w, prov, lane, g, x);
    assert w.Advance() == O.Window(k + 1, map[], capacity);
    DrainOne(w.Advance(), prov, lane, g, HandleOne(x, prov, lane, g, packet).x);
  }

  lemma DeliverAlone(x: Endpoint, prov: Provider, lane: Lane, g: nat, k: nat, packet: Bytes, capacity: nat)
    requires k < USIZE - 1 && capacity > 0 && WindowOf(x, lane) == Some(O.Window(k, map[], capacity))
    requires HandleOne(Taken(x, lane, k), prov, lane, g, packet).out.Fine?
    ensures Deliver(x, prov, lane, g, Some(k), packet)
         == Res(WithOrderer(HandleOne(Taken(x, lane, k), prov, lane, g, packet).x, lane,
                            Some(O.Window(k + 1, map[], capacity))), Fine)
  {
    hide HandleOne, Handler, Taken, WithOrderer, O.Drain;
    DrainAlone(prov, lane, g, Taken(x, lane, k), k, packet, capacity);
    assert O.Window(k, map[], capacity).Push(k, packet) == Some(O.Window(k, map[k := packet], capacity));
  }

  /// After the duplicate check of the `k`-th announcement.
  ghost predicate HeardAccepted(x: Endpoint, a: Endpoint, key: Key) {
    a == x.(ack := x.ack + EncodeKey(key),
            rx := Noted(x.rx.(dup := x.rx.dup + {key}, accepted := x.rx.accepted + [Accepted(StageOf(x.state), key)]),
                        Accepted(StageOf(x.state), key)))
  }

  /// After the announcement has been registered and the orderer put back.
  ghost predicate HeardRegistered(e: Env, y: Endpoint, a: Endpoint, h: Endpoint, x': Endpoint, k: nat, packet: Bytes) {
    var t := Taken(a, MANAGEMENT_LANE, k);
    && x' == WithOrderer(h, MANAGEMENT_LANE, Some(O.Window(k + 1, map[], MANAGEMENT_CHANNEL.capacity.value)))
    && if k < |y.tx.listing| then Entered(e, y, t, h, packet) else t.state.Registration? && h == EndHandled(t, packet)
  }

  lemma HeardTurn(e: Env, y: Endpoint, a: Endpoint, k: nat, packet: Bytes)
    requires PeerOk(e, y) && TableOk(e.mine, y, a) && a.state == Registration(false, a.tx.finalKey)
    requires a.tx.finalKey.Some?
    requires |Lookup(a.rx.handled, MANAGEMENT_LANE)| == k <= |y.tx.listing| && k < USIZE - 1
    requires WindowOf(a, MANAGEMENT_LANE) == Some(O.Window(k, map[], MANAGEMENT_CHANNEL.capacity.value))
    requires k < |Lookup(y.tx.submitted, MANAGEMENT_LANE)| && packet == Lookup(y.tx.submitted, MANAGEMENT_LANE)[k]
    requires k < |y.tx.listing| ==> y.tx.listing[k].name in e.mine.names
    ensures var r := Deliver(a, e.mine, MANAGEMENT_LANE, MANAGEMENT_ID_REGISTRATION, Some(k), packet);
            var h := Register(Taken(a, MANAGEMENT_LANE, k), e.mine, packet).x;
            r.out.Fine? && HeardRegistered(e, y, a, h, r.x, k, packet)
  {
    hide PeerOk, TableOk, Register, Entered, Deliver, Taken;
    var t := Taken(a, MANAGEMENT_LANE, k);
    TakenShape(a, MANAGEMENT_LANE, k);
    TakenNext(e, y, a, k, packet);
    RegisterReads(e, y, t, packet);
    if k < |y.tx.listing| {
      KnownFine(e, y, t, packet);
    } else {
      NotConverted(t, packet);
    }
    assert HandleOne(t, e.mine, MANAGEMENT_LANE, MANAGEMENT_ID_REGISTRATION, packet) == Register(t, e.mine, packet);
    DeliverAlone(a, e.mine, MANAGEMENT_LANE, MANAGEMENT_ID_REGISTRATION, k, packet, MANAGEMENT_CHANNEL.capacity.value);
  }

  lemma NotConverted(t: Endpoint, packet: Bytes)
    requires t.state.Registration? && t.state.lastKey.Some?
    ensures Converted(EndHandled(t, packet)) == EndHandled(t, packet)
  {
  }

  lemma TakenNext(e: Env, y: Endpoint, a: Endpoint, k: nat, packet: Bytes)
    requires TableOk(e.mine, y, a) && WindowOf(a, MANAGEMENT_LANE).Some? && a.state.Registration?
    requires |Lookup(a.rx.handled, MANAGEMENT_LANE)| == k
    requires k < |Lookup(y.tx.submitted, MANAGEMENT_LANE)| && packet == Lookup(y.tx.submitted, MANAGEMENT_LANE)[k]
    ensures var t := Taken(a, MANAGEMENT_LANE, k);
            TableOk(e.mine, y, t) && NextAnnouncement(y, t, packet) && t.state == a.state && t.tx == a.tx
  {
    TakenShape(a, MANAGEMENT_LANE, k);
  }

  lemma ReadySet(e: Env, y: Endpoint, t: Endpoint, h: Endpoint, packet: Bytes)
    requires OrderersReady(e, t) && Entered(e, y, t, h, packet) && TableOk(e.mine, y, t) && t.state.Registration?
    ensures OrderersReady(e, h)
  {
    TableStep(e, y, t, h, packet);
    hide TableOk;
    var n := |t.rx.notLocal.localToGlobal|;
    TableLength(e, y, t);
    forall c: nat | Behind(e.mine, h, c).Some? && Behind(e.mine, h, c).value.IsOrdered()
      ensures WindowOf(h, Lane(Tra, c)) == Some(O.NewWindow(Behind(e.mine, h, c).value.capacity.value))
    {
      if c < n {
        assert Behind(e.mine, h, c) == Behind(e.mine, t, c);
        assert WindowOf(t, Lane(Tra, c)).Some?;
      }
    }
  }

  /// What is heard next.
  lemma HeardNext(e: Env, y: Endpoint, x: Endpoint, a: Endpoint, h: Endpoint, x': Endpoint, k: nat, packet: Bytes)
    requires Heard(e, y, x, k) && k < |y.tx.sent| && k <= |y.tx.listing| && TableOk(e.mine, y, a)
    requires forall i :: 0 <= i < k + 1 ==> y.tx.sent[i].key.Some? && Fits(y.tx.sent[i].key.value)
    requires HeardAccepted(x, a, y.tx.sent[k].key.value) && HeardRegistered(e, y, a, h, x', k, packet)
    requires x.state.Registration?
    ensures Heard(e, y, x', k + 1) && x'.tx == x.tx && x'.local == x.local && |x'.ack| <= 10 * (k + 1)
  {
    hide FrontKeys, TableOk, Entered, OrderersReady, EncodeKeys;
    var key, t := y.tx.sent[k].key.value, Taken(a, MANAGEMENT_LANE, k);
    OneMoreFront(y.tx.sent, k);
    TakenShape(a, MANAGEMENT_LANE, k);
    ReadySame(e, x, t);
    TableSame(e, y, a, t);
    EnteredShape(e, y, t, h, packet, k);
    ReadySame(e, h, x');
    forall b | b in x'.rx.accepted
      ensures b.key in FrontKeys(y.tx.sent, k + 1)
    {
      if b !in x.rx.accepted {
        assert b.key == key;
      }
    }
  }

  lemma TableSame(e: Env, y: Endpoint, a: Endpoint, t: Endpoint)
    requires TableOk(e.mine, y, a) && t.rx.notLocal == a.rx.notLocal && t.rx.handled == a.rx.handled
    requires t.state == a.state
    ensures TableOk(e.mine, y, t)
  {
  }

  lemma ReadySame(e: Env, x: Endpoint, x': Endpoint)
    requires OrderersReady(e, x) && x'.rx.notLocal == x.rx.notLocal
    requires forall l: Lane :: l.stage.Tra? ==> WindowOf(x', l) == WindowOf(x, l)
    ensures OrderersReady(e, x')
  {
    forall c: nat | Behind(e.mine, x', c).Some? && Behind(e.mine, x', c).value.IsOrdered()
      ensures WindowOf(x', Lane(Tra, c)) == Some(O.NewWindow(Behind(e.mine, x', c).value.capacity.value))
    {
      assert Behind(e.mine, x', c) == Behind(e.mine, x, c);
      assert WindowOf(x', Lane(Tra, c)) == WindowOf(x, Lane(Tra, c));
    }
  }

  /// One announcement on, with the rest of the receiver as it was.
  lemma EnteredShape(e: Env, y: Endpoint, t: Endpoint, h: Endpoint, packet: Bytes, k: nat)
    requires OrderersReady(e, t) && TableOk(e.mine, y, t) && t.state.Registration?
    requires |Lookup(t.rx.handled, MANAGEMENT_LANE)| == k
    requires if k < |y.tx.listing| then Entered(e, y, t, h, packet) else h == EndHandled(t, packet)
    ensures h.tx == t.tx && h.local == t.local && h.ack == t.ack && OrderersReady(e, h)
    ensures h.rx.accepted == t.rx.accepted && h.rx.noted == t.rx.noted && h.rx.joiner == t.rx.joiner
    ensures |Lookup(h.rx.handled, MANAGEMENT_LANE)| == k + 1
    ensures h.state == if k < |y.tx.listing| then t.state else t.state.(receivedLast := true)
  {
    hide TableOk, OrderersReady;
    if k < |y.tx.listing| {
      ReadySet(e, y, t, h, packet);
    } else {
      ReadySame(e, t, h);
    }
  }

  /// A whole packet's body, read and dealt with.
  lemma WholeBody(x: Endpoint, prov: Provider, p: Packet, g: nat, ch: Channel)
    requires FrameReads(p, Frame(p)) && p.seg.None?
    requires ch.IsOrdered() == p.order.Some? && ch.IsReliable() == p.key.Some?
    ensures ReceiveBody(x, prov, p.lane, g, ch, false, DecodePrimary(Frame(p)).rest)
         == ReceiveWhole(x, prov, p.lane, g, Header(p.order, p.key), p.payload)
  {
    hide Frame, DecodePrimary, DecodeSegment, ReadHeader, ReceiveWhole;
  }

  /// A whole packet of the receiver's own stage, read and dealt with.
  lemma WholeReceived(e: Env, y: Endpoint, x: Endpoint, p: Packet, g: nat, ch: Channel)
    requires PeerOk(e, y) && Good(e, y, x) && p in y.tx.sent && p.seg.None? && Speculate(x, p.lane.chan) == x
    requires LaneReady(e.mine, x, Lane(StageOf(x.state), p.lane.chan), g, ch)
    ensures Receive(x, e.mine, Frame(p)) == ReceiveWhole(x, e.mine, p.lane, g, Header(p.order, p.key), p.payload)
  {
    hide PeerOk, Good, Frame, FrameReads, Taking, DecodePrimary, Parse, LaneChannel, PacketFits, ReceiveBody,
         ReceiveWhole, Speculate;
    PacketKind(e, y, p);
    FrameRoundTrip(p);
    PrimaryRead(p);
    TakingFrom(e, y, x, p, g, ch);
    TakingParts(e, y, x, p, g, ch);
    WholeBody(x, e.mine, p, g, ch);
  }

  /// The receiver knows all the names, and the acknowledgements of all announcements fit in one packet.
  ghost predicate Hearable(e: Env, y: Endpoint) {
    && (forall i :: 0 <= i < |y.tx.listing| ==> y.tx.listing[i].name in e.mine.names)
    && 10 * (|y.tx.listing| + 3) <= MAX_NON_SEGMENTED_PAYLOAD
    && |y.tx.listing| < |y.tx.sent|
    && (forall i: nat :: i <= |y.tx.listing| ==> Announces(y.tx, i))
  }

  lemma AnnouncedPacket(e: Env, y: Endpoint, k: nat)
    requires PeerOk(e, y) && k < |y.tx.sent| && Announces(y.tx, k)
    ensures var p := y.tx.sent[k];
            && Fits(p.key.value) && k < |Lookup(y.tx.submitted, MANAGEMENT_LANE)|
            && p.payload == Lookup(y.tx.submitted, MANAGEMENT_LANE)[k]
  {
    hide PeerOk, Frame;
    PeerParts(e, y, y.tx.sent[k]);
  }

  lemma FrontAnnounced(e: Env, y: Endpoint, k: nat)
    requires PeerOk(e, y) && Hearable(e, y) && k <= |y.tx.listing|
    ensures forall i :: 0 <= i < k + 1 ==> y.tx.sent[i].key.Some? && Fits(y.tx.sent[i].key.value)
  {
    hide PeerOk, Frame;
    forall i: nat | i < k + 1
      ensures y.tx.sent[i].key.Some? && Fits(y.tx.sent[i].key.value)
    {
      assert Announces(y.tx, i);
      AnnouncedPacket(e, y, i);
    }
  }

  lemma GoodTable(e: Env, y: Endpoint, x: Endpoint)
    requires Good(e, y, x)
    ensures TableOk(e.mine, y, x) && x.tx.finalKey.Some? && x.local.ack != NULL_ID
  {
    UpParts(e, x);
    UpHasFinal(e, x);
    hide UpInv, AcceptOk, TableOk, LanesOk, QuietOk, BuffersOk, RoutedOk, JoiningOk, ReleasedOk, HandshakeOk;
  }

  /// The next announcement is taken as it should be.
  lemma HearOne(e: Env, y: Endpoint, x: Endpoint, k: nat)
    requires PeerOk(e, y) && Good(e, y, x) && Hearable(e, y) && Heard(e, y, x, k) && k <= |y.tx.listing|
    ensures var r := Receive(x, e.mine, Frame(y.tx.sent[k]));
            r.out.Fine? && Heard(e, y, r.x, k + 1) && r.x.tx == x.tx && r.x.local == x.local
  {
    hide PeerOk, Good, Frame, TableOk, FrontKeys, EncodeKeys, Receive, Deliver, OrderersReady, HeardRegistered, Accept;
    var p := y.tx.sent[k];
    assert Announces(y.tx, k);
    AnnouncedPacket(e, y, k);
    FrontAnnounced(e, y, k);
    OneMoreFront(y.tx.sent, k);
    GoodTable(e, y, x);
    NewToReceiver(e, y, x, k, k);
    WholeReceived(e, y, x, p, MANAGEMENT_ID_REGISTRATION, MANAGEMENT_CHANNEL);
    AcceptFits(x, p.key.value);
    var a := Accept(x, p.key).x;
    TableSame(e, y, x, a);
    HeardTurn(e, y, a, k, p.payload);
    var h := Register(Taken(a, MANAGEMENT_LANE, k), e.mine, p.payload).x;
    var r := Deliver(a, e.mine, MANAGEMENT_LANE, MANAGEMENT_ID_REGISTRATION, Some(k), p.payload);
    HeardNext(e, y, x, a, h, r.x, k, p.payload);
  }

  // ---- Flushing the acknowledgements ----

  lemma RetainLen<T>(s: Slots<T>, f: T -> Verdict<T>)
    requires s.Valid()
    ensures s.RetainIf(f).Len() <= s.Len()
  {
    RetainRefines(s, f);
    LenRefines(s);
    LenRefines(s.RetainIf(f));
    hide Slots.RetainIf, Slots.Len, Slots.Valid, Slots.AsMap;
    FewerEntries(s.RetainIf(f).AsMap(), s.AsMap());
  }

  lemma FewerEntries<T>(m: map<Key, T>, m': map<Key, T>)
    requires forall k :: k in m ==> k in m'
    ensures |m| <= |m'|
  {
    assert m.Keys <= m'.Keys;
    FewerKeys(m.Keys, m'.Keys);
    assert |m| == |m.Keys| && |m'| == |m'.Keys|;
  }

  lemma {:induction false} FewerKeys(a: set<Key>, b: set<Key>)
    requires a <= b
    ensures |a| <= |b|
  {
    if a != {} {
      var k :| k in a;
      FewerKeys(a - {k}, b - {k});
    }
  }

  /// A first short resend sends nothing and leaves everything easy.
  lemma ResendEasy(tx: Tx, delta: nat)
    requires Easy(tx) && Timeless(tx.resender.slots) && delta < MANAGEMENT_CHANNEL.reliability.value.interval
    ensures !tx.resender.Overflows(delta) && Easy(Resend(tx, delta)) && Resend(tx, delta).sent == tx.sent
    ensures Resend(tx, delta).orders == tx.orders && Resend(tx, delta).submitted == tx.submitted
    ensures IsPrefix(tx.wire, Resend(tx, delta).wire) && Resend(tx, delta).resender.capacity == tx.resender.capacity
    ensures Resend(tx, delta).messages == tx.messages
  {
    EasySlots(tx);
    ResendOnward(tx, delta);
    RetainLen(tx.resender.slots, R.Expiry(delta));
    hide Counted, Slots.Len, Slots.Valid;
  }

  /// The acknowledgements have gone out in one packet.
  ghost predicate Flushed(x: Endpoint, x': Endpoint) {
    && |x'.tx.sent| == |x.tx.sent| + 1
    && var t, p := x'.tx, x'.tx.sent[|x.tx.sent|];
    && x' == x.(tx := t, ack := []) && t.sent == x.tx.sent + [p]
    && p == Packet(ACK_LANE, None, None, p.key, x.ack) && p.key.Some?
    && Frame(p) in t.wire && IsPrefix(x.tx.wire, t.wire) && !t.wrapped
    && t.resender.capacity == x.tx.resender.capacity && t.orders == x.tx.orders
    && t.submitted == Log(x.tx.submitted, ACK_LANE, x.ack)
    && t.listing == x.tx.listing && t.finalKey == x.tx.finalKey && t.messages == x.tx.messages
  }

  /// A first short tick sends the acknowledgements.
  lemma TickOnce(e: Env, x: Endpoint, delta: nat)
    requires UpInv(e.mine, x) && x.state.Registration? && Easy(x.tx) && Timeless(x.tx.resender.slots)
    requires delta < MANAGEMENT_CHANNEL.reliability.value.interval
    ensures Tick(x, delta).out.Fine? && Flushed(x, Tick(x, delta).x)
    ensures exists b :: Tick(x, delta).x.tx.resender.slots == x.tx.resender.Update(delta).slots.Put(b)
  {
    UpParts(e, x);
    hide UpInv, TxInv, Easy, Resend, SendPacket, Frame, AckPayload, AckLaneReady, Flushed, Tick, WentOut,
         R.Resender.Overflows;
    ResendEasy(x.tx, delta);
    SendGoesOut(Resend(x.tx, delta), ACK_CHANNEL, ACK_LANE, x.ack);
    TickedFields(x, delta);
    FlushedFrom(x, SendPacket(Resend(x.tx, delta), ACK_CHANNEL, ACK_LANE, x.ack), delta);
    StoredAck(Resend(x.tx, delta), SendPacket(Resend(x.tx, delta), ACK_CHANNEL, ACK_LANE, x.ack), x.ack);
  }

  lemma StoredAck(tx: Tx, s: Sent, ack: Bytes)
    requires WentOut(tx, s.tx, ACK_CHANNEL, Packet(ACK_LANE, None, None, s.key, ack))
    ensures exists b :: s.tx.resender.slots == tx.resender.slots.Put(b)
  {
    hide Frame, Slots.Put;
  }

  lemma TickedFields(x: Endpoint, delta: nat)
    requires !x.tx.resender.Overflows(delta) && x.local.ack != NULL_ID && x.state.Registration?
    ensures var s := SendPacket(Resend(x.tx, delta), ACK_CHANNEL, ACK_LANE, x.ack);
            s.out.Fine? ==> Tick(x, delta) == Res(x.(tx := s.tx, ack := []), Fine)
  {
    hide SendPacket, Resend, R.Resender.Overflows;
  }

  lemma FlushedFrom(x: Endpoint, s: Sent, delta: nat)
    requires s == SendPacket(Resend(x.tx, delta), ACK_CHANNEL, ACK_LANE, x.ack)
    requires WentOut(Resend(x.tx, delta), s.tx, ACK_CHANNEL, Packet(ACK_LANE, None, None, s.key, x.ack))
    requires s.tx.submitted == Log(x.tx.submitted, ACK_LANE, x.ack) && s.tx.orders == x.tx.orders
    requires s.tx.messages == x.tx.messages
    ensures Flushed(x, x.(tx := s.tx, ack := []))
  {
    SendPacketGrows(Resend(x.tx, delta), ACK_CHANNEL, ACK_LANE, x.ack);
    hide SendPacket, Frame, Counted, Timeless, Slots.Len, Slots.Put, Slots.RetainIf, R.Resender.Resent;
    assert IsPrefix(x.tx.wire, Resend(x.tx, delta).wire);
    assert IsPrefix(x.tx.wire, s.tx.wire);
  }

  // ---- Taking the acknowledgements ----

  /// Only the resender and the last registration key may change.
  ghost predicate OnlyReleases(x: Endpoint, x': Endpoint) {
    && x'.rx == x.rx && x'.ack == x.ack && x'.local == x.local
    && x'.tx.sent == x.tx.sent && x'.tx.wire == x.tx.wire && x'.tx.orders == x.tx.orders
    && x'.tx.submitted == x.tx.submitted && x'.tx.wrapped == x.tx.wrapped && x'.tx.listing == x.tx.listing
    && x'.tx.resender.capacity == x.tx.resender.capacity && x'.tx.messages == x.tx.messages
  }

  lemma {:induction false} AckKeysClear(x: Endpoint, ks: seq<Key>, final: Key)
    requires x.state == Registration(true, Some(final)) || x.state == Registration(true, None)
    requires forall k :: k in ks ==> Fits(k) && k.index < |x.tx.resender.slots.generations|
    ensures var r := AckLocally(x, EncodeKeys(ks));
            && r.out.Fine? && OnlyReleases(x, r.x)
            && r.x.state == if final in ks then Registration(true, None) else x.state
    decreases |ks|
  {
    if ks != [] {
      KeyRoundTrip(ks[0], EncodeKeys(ks[1..]));
      AckKeysClear(AckOne(x, ks[0]), ks[1..], final);
    }
  }

  /// The peer's acknowledgement of the end brings an endpoint to transfer.
  lemma AckHandled(x: Endpoint, prov: Provider, ks: seq<Key>, final: Key)
    requires x.state == Registration(true, Some(final)) && final in ks
    requires forall k :: k in ks ==> Fits(k) && k.index < |x.tx.resender.slots.generations|
    ensures var r := HandleOne(x, prov, ACK_LANE, ACK_ID_REGISTRATION, EncodeKeys(ks));
            && r.out.Fine? && Entering(x, r.x)
  {
    hide AckLocally, EncodeKeys, OnlyReleases;
    AckKeysClear(x, ks, final);
    var a := AckLocally(x, EncodeKeys(ks)).x;
    assert HandleOne(x, prov, ACK_LANE, ACK_ID_REGISTRATION, EncodeKeys(ks)) == Res(EnterTransfer(a), Fine);
    EntersFrom(x, a);
  }

  /// Just entered the transfer stage.
  ghost predicate Entering(x: Endpoint, x': Endpoint) {
    && x'.state.Transfer? && x'.ack == [] && x'.rx == x.rx.(dup := {}) && x'.local == x.local
    && x'.tx.sent == x.tx.sent && x'.tx.wire == x.tx.wire && x'.tx.orders == x.tx.orders
    && x'.tx.submitted == x.tx.submitted && x'.tx.wrapped == x.tx.wrapped && x'.tx.listing == x.tx.listing
    && x'.tx.resender.capacity == x.tx.resender.capacity && x'.tx.messages == x.tx.messages
    && x'.tx.resender.slots.values == [] && x'.tx.resender.slots.free == []
  }

  lemma EntersFrom(x: Endpoint, a: Endpoint)
    requires OnlyReleases(x, a)
    ensures Entering(x, EnterTransfer(a))
  {
  }

  lemma KnownKeys(e: Env, y: Endpoint, x: Endpoint, p: Packet, ks: seq<Key>)
    requires PeerOk(e, y) && Good(e, y, x) && AcceptOk(x, y) && p in y.tx.sent && p.lane == ACK_LANE
    requires p.payload == EncodeKeys(ks) && forall k :: k in ks ==> Fits(k) && k in y.rx.noted
    ensures forall k :: k in ks ==> Fits(k) && k.index < |x.tx.resender.slots.generations|
  {
    hide PeerOk, Good, AcceptOk, SelfInv, EncodeKeys;
    GoodSelf(e, y, x);
    NotedAccepted(x, y);
    AcceptedKnown(e.mine, y, x);
  }

  /// The arrival of the acknowledgements.
  lemma AckArrives(e: Env, y: Endpoint, x: Endpoint, p: Packet, ks: seq<Key>)
    requires PeerOk(e, y) && Good(e, y, x) && AcceptOk(x, y) && p in y.tx.sent
    requires p.lane == ACK_LANE && p.seg.None? && p.order.None? && p.key.Some? && p.key.value !in x.rx.dup
    requires p.payload == EncodeKeys(ks) && forall k :: k in ks ==> Fits(k) && k in y.rx.noted
    requires x.tx.finalKey.Some? && x.tx.finalKey.value in ks && x.state == Registration(true, x.tx.finalKey)
    requires |x.ack| + 10 <= MAX_NON_SEGMENTED_PAYLOAD
    ensures var r, k := Receive(x, e.mine, Frame(p)), p.key.value;
            && r.out.Fine? && r.x.rx.handled == x.rx.handled && r.x.rx.orderers == x.rx.orderers
            && r.x.rx.notLocal == x.rx.notLocal && r.x.rx.pushed == x.rx.pushed && r.x.rx.dup == {}
            && x.rx.noted <= r.x.rx.noted && r.x.rx.joiner == x.rx.joiner
            && exists a: Endpoint :: Entering(a, r.x) && a.tx == x.tx && a.local == x.local
  {
    hide PeerOk, Good, AcceptOk, Frame, EncodeKeys, Receive, HandleOne, Accept, UpInv, BareOk, PacketOk, KeysDistinct,
         OrdersDistinct;
    GoodTable(e, y, x);
    PeerParts(e, y, p);
    KeyLength(p.key.value);
    KnownKeys(e, y, x, p, ks);
    WholeReceived(e, y, x, p, ACK_ID_REGISTRATION, ACK_CHANNEL);
    AcceptFits(x, p.key.value);
    var a := Accept(x, p.key).x;
    AckHandled(a, e.mine, ks, x.tx.finalKey.value);
    assert Deliver(a, e.mine, p.lane, ACK_ID_REGISTRATION, None, p.payload)
        == HandleOne(a, e.mine, ACK_LANE, ACK_ID_REGISTRATION, p.payload);
    assert Entering(a, Receive(x, e.mine, Frame(p)).x);
  }

  /// All announcements have gone both ways, and the acknowledgements are on their way.
  ghost predicate Waiting(e: Env, y: Endpoint, x: Endpoint, ks: seq<Key>) {
    var n := |y.tx.listing|;
    && x.state == Registration(true, x.tx.finalKey) && x.tx.finalKey.Some?
    && |x.ack| + 10 <= MAX_NON_SEGMENTED_PAYLOAD
    && |y.tx.sent| == n + 2 && (forall i :: 0 <= i < n + 1 ==> y.tx.sent[i].key.Some?)
    && (forall a :: a in x.rx.accepted ==> a.key in FrontKeys(y.tx.sent, n + 1))
    && var p := y.tx.sent[n + 1];
    && p == Packet(ACK_LANE, None, None, p.key, EncodeKeys(ks)) && p.key.Some? && Frame(p) in y.tx.wire
    && (forall k :: k in ks ==> Fits(k) && k in y.rx.noted) && x.tx.finalKey.value in ks
    && OrderersReady(e, x) && x.rx.joiner == map[]
  }

  lemma SameFront(sent: seq<Packet>, sent': seq<Packet>, k: nat)
    requires IsPrefix(sent, sent') && k <= |sent| && forall i :: 0 <= i < k ==> sent[i].key.Some?
    ensures (forall i :: 0 <= i < k ==> sent'[i].key.Some?) && FrontKeys(sent', k) == FrontKeys(sent, k)
  {
    PrefixIn(sent, sent');
  }

  /// The buffered keys are those of the announcements heard, all noted.
  lemma BufferedNoted(e: Env, y: Endpoint, x: Endpoint, k: nat)
    requires SelfInv(e.mine, x) && Heard(e, y, x, k) && forall i :: 0 <= i < k ==> Fits(y.tx.sent[i].key.value)
    ensures forall q :: q in FrontKeys(y.tx.sent, k) ==> Fits(q) && q in x.rx.noted
  {
    hide TxInv, AnnouncedOk, AnnouncedAll, StagesOk, EncodeKeys, DecodeKeys, OrderersReady;
    var ks :| x.ack == EncodeKeys(ks) && KeysIn(ks, x.rx.noted);
    KeysRoundTrip(ks);
    KeysRoundTrip(FrontKeys(y.tx.sent, k));
  }

  lemma WaitingFrom(e: Env, y: Endpoint, y': Endpoint, x: Endpoint, x': Endpoint)
    requires Heard(e, y, x, |y.tx.listing| + 1) && x.tx.finalKey.Some? && Flushed(y, y')
    requires Flushed(x, x') || (x' == x && |x.ack| + 10 <= MAX_NON_SEGMENTED_PAYLOAD)
    requires |y.tx.sent| == |y.tx.listing| + 1 && |x.tx.sent| == |x.tx.listing| + 1
    requires forall i :: 0 <= i < |x.tx.sent| ==> x.tx.sent[i].key.Some?
    requires y.ack == EncodeKeys(FrontKeys(x.tx.sent, |x.tx.sent|)) && x.tx.finalKey == x.tx.sent[|x.tx.listing|].key
    requires forall q :: q in FrontKeys(x.tx.sent, |x.tx.sent|) ==> Fits(q) && q in y.rx.noted
    ensures Waiting(e, y', x', FrontKeys(x.tx.sent, |x.tx.sent|))
  {
    hide Frame, EncodeKeys, OrderersReady;
    SameFront(y.tx.sent, y'.tx.sent, |y.tx.listing| + 1);
    ReadySame(e, x, x');
    assert FrontKeys(x.tx.sent, |x.tx.sent|)[|x.tx.listing|] == x.tx.finalKey.value;
  }

  /// The peer may enter transfer meanwhile.
  lemma StillWaiting(e: Env, y: Endpoint, y': Endpoint, x: Endpoint, ks: seq<Key>)
    requires Waiting(e, y, x, ks) && y'.tx.sent == y.tx.sent && y'.tx.wire == y.tx.wire && y'.tx.listing == y.tx.listing
    requires y.rx.noted <= y'.rx.noted
    ensures Waiting(e, y', x, ks)
  {
    hide Frame, EncodeKeys, OrderersReady;
  }

  /// In transfer, with nothing received yet.
  ghost predicate JustArrived(e: Env, x: Endpoint) {
    && x.state.Transfer? && x.ack == [] && x.rx.dup == {} && x.rx.joiner == map[] && OrderersReady(e, x)
    && (forall lane: Lane :: lane.stage.Tra? ==> Lookup(x.rx.handled, lane) == [])
  }

  lemma QuietBefore(e: Env, y: Endpoint, x: Endpoint)
    requires Good(e, y, x) && x.state.Registration?
    ensures forall lane: Lane :: lane.stage.Tra? ==> Lookup(x.rx.handled, lane) == []
  {
    hide UpInv, AcceptOk, TableOk, LanesOk, BuffersOk, RoutedOk, JoiningOk, ReleasedOk, HandshakeOk;
  }

  lemma WaitingArrives(e: Env, y: Endpoint, x: Endpoint, ks: seq<Key>)
    requires PeerOk(e, y) && Good(e, y, x) && AcceptOk(x, y) && Waiting(e, y, x, ks)
    ensures var r := Receive(x, e.mine, Frame(y.tx.sent[|y.tx.listing| + 1]));
            && r.out.Fine? && JustArrived(e, r.x) && x.rx.noted <= r.x.rx.noted
            && exists a: Endpoint :: Entering(a, r.x) && a.tx == x.tx && a.local == x.local
  {
    hide PeerOk, Good, AcceptOk, Frame, EncodeKeys, Receive, OrderersReady, FrontKeys, Entering;
    var n := |y.tx.listing|;
    var p := y.tx.sent[n + 1];
    NewToReceiver(e, y, x, n + 1, n + 1);
    AckArrives(e, y, x, p, ks);
    QuietBefore(e, y, x);
    var r := Receive(x, e.mine, Frame(p));
    EnteredTransfer(r.x, x);
    ReadySame(e, x, r.x);
  }

  lemma EnteredTransfer(x': Endpoint, x: Endpoint)
    requires exists a: Endpoint :: Entering(a, x') && a.tx == x.tx && a.local == x.local
    ensures x'.state.Transfer? && x'.ack == []
  {
    var a: Endpoint :| Entering(a, x') && a.tx == x.tx && a.local == x.local;
  }

  // ---- The first payload ----

  lemma NamedGlobal(prov: Provider, name: Bytes)
    requires name in prov.names && AppName(name)
    ensures AppChannel(prov, prov.names[name])
  {
  }

  /// The first packet of a channel.
  ghost predicate FirstPacket(prov: Provider, x: Endpoint, x': Endpoint, name: Bytes, payload: Bytes)
    requires name in prov.names && prov.ById(prov.names[name]).Some?
  {
    var ch, id := prov.ById(prov.names[name]).value, x.local.LocalId(Tra, prov.names[name]);
    && id.Some? && |x'.tx.sent| == |x.tx.sent| + 1
    && var lane, p := Lane(Tra, id.value), x'.tx.sent[|x.tx.sent|];
    && x' == x.(tx := x'.tx) && x'.tx.sent == x.tx.sent + [p] && !x'.tx.wrapped
    && p == Packet(lane, None, if ch.IsOrdered() then Some(0) else None, p.key, payload)
    && (p.key.Some? <==> ch.IsReliable()) && Frame(p) in x'.tx.wire
    && x'.tx.submitted == Log(x.tx.submitted, lane, payload)
  }

  lemma SendFirst(e: Env, x: Endpoint, name: Bytes, payload: Bytes)
    requires e.mine.WellFormed() && UpInv(e.mine, x) && x.state.Transfer? && Easy(x.tx)
    requires name in e.mine.names && AppName(name) && |payload| <= MAX_NON_SEGMENTED_PAYLOAD
    requires e.mine.ById(e.mine.names[name]).Some?
    requires forall lane: Lane :: lane.stage.Tra? ==> Lookup(x.tx.submitted, lane) == []
    ensures var r := AppSend(x, e.mine, e.mine.names[name], payload);
            r.out.Fine? && FirstPacket(e.mine, x, r.x, name, payload)
  {
    hide UpInv, SelfInv, AppChannel, IsAckLane, LaneChannel, SendPacket, Easy, Frame, Provider.WellFormed, AppName,
         Counted, Timeless;
    NamedGlobal(e.mine, name);
    AppLane(e, x, e.mine.names[name]);
    CanSend(e, x, e.mine.names[name]);
    UpIsSelf(e.mine, x);
    var lane := Lane(Tra, x.local.LocalId(Tra, e.mine.names[name]).value);
    var ch := e.mine.ById(e.mine.names[name]).value;
    if ch.IsOrdered() {
      CounterAtZero(e.mine, x, lane);
    }
    SendGoesOut(x.tx, ch, lane, payload);
  }

  lemma CounterAtZero(prov: Provider, x: Endpoint, lane: Lane)
    requires SelfInv(prov, x) && LaneChannel(prov, x.local, lane).Some?
    requires LaneChannel(prov, x.local, lane).value.IsOrdered()
    requires x.tx.orders.Has(lane) && Lookup(x.tx.submitted, lane) == []
    ensures x.tx.orders.At(lane) == 0
  {
    hide BufferOk, AnnouncedOk, AnnouncedAll, StagesOk, PacketOk, KeysDistinct, OrdersDistinct, OnWire, SlotsOk,
         LaneChannel;
  }

  /// A lane whose messages go straight into a buffer.
  ghost predicate Buffers(x: Endpoint, lane: Lane, g: nat) {
    && x.state.Transfer? && g in x.rx.buffers
    && (x.rx.notLocal.ack == NULL_ID || x.rx.notLocal.ack != lane.chan)
    && (x.rx.notLocal.management == NULL_ID || x.rx.notLocal.management != lane.chan)
  }

  lemma BufferLane(e: Env, y: Endpoint, x: Endpoint, p: Packet, g: nat, ch: Channel)
    requires PeerOk(e, y) && Good(e, y, x) && x.state.Transfer? && Payload(y, p) && LaneReady(e.mine, x, p.lane, g, ch)
    ensures Buffers(x, p.lane, g)
  {
    hide PeerOk, Good;
    SystemEntries(e, y, x);
    BufferThere(e, y, x, p.lane, g, ch);
  }

  lemma BufferedAtOnce(x: Endpoint, prov: Provider, lane: Lane, g: nat, packet: Bytes)
    requires Buffers(x, lane, g)
    ensures var r := HandleOne(x, prov, lane, g, packet);
            && r.out.Fine? && r.x.tx == x.tx && r.x.state == x.state && r.x.rx.orderers == x.rx.orderers
            && r.x.rx.notLocal == x.rx.notLocal
            && BufferOf(r.x.rx.buffers, g) == BufferOf(x.rx.buffers, g) + [packet]
  {
  }

  /// The first payload of a lane was taken and delivered at once.
  ghost predicate Took(x: Endpoint, x': Endpoint, g: nat, p: Packet) {
    && x'.tx == x.tx && x'.state == x.state && x'.rx.notLocal == x.rx.notLocal
    && BufferOf(x'.rx.buffers, g) == BufferOf(x.rx.buffers, g) + [p.payload]
    && (p.order.Some? && WindowOf(x, p.lane).Some? ==>
          WindowOf(x', p.lane) == Some(O.Window(1, map[], WindowOf(x, p.lane).value.capacity)))
  }

  lemma FirstDelivered(a: Endpoint, prov: Provider, p: Packet, g: nat, capacity: nat)
    requires Buffers(a, p.lane, g)
    requires p.order.Some? ==>
               p.order == Some(0) && capacity > 0 && WindowOf(a, p.lane) == Some(O.NewWindow(capacity))
    ensures var r := Deliver(a, prov, p.lane, g, p.order, p.payload); r.out.Fine? && Took(a, r.x, g, p)
  {
    hide HandleOne, BufferOf;
    if p.order.Some? {
      var t := Taken(a, p.lane, 0);
      BufferedAtOnce(t, prov, p.lane, g, p.payload);
      hide Deliver, Taken;
      TakenShape(a, p.lane, 0);
      DeliverAlone(a, prov, p.lane, g, 0, p.payload, capacity);
    } else {
      BufferedAtOnce(a, prov, p.lane, g, p.payload);
    }
  }

  /// The first payload of a lane, taken by an endpoint that has just come to transfer.
  lemma FirstTaken(e: Env, y: Endpoint, x: Endpoint, p: Packet, g: nat, ch: Channel)
    requires PeerOk(e, y) && Good(e, y, x) && JustArrived(e, x) && Payload(y, p) && LaneReady(e.mine, x, p.lane, g, ch)
    requires p.order.Some? ==> p.order == Some(0) && ch.IsOrdered() && ch.capacity.value > 0
    ensures var r := Receive(x, e.mine, Frame(p)); r.out.Fine? && Took(x, r.x, g, p)
  {
    hide PeerOk, Good, Frame, Receive, BufferOf, ReceiveWhole, Deliver, EncodeKey, Took, Taking, IsAckLane, Served,
         TableOk;
    KeyFits(e, y, p);
    TakingFrom(e, y, x, p, g, ch);
    TakingParts(e, y, x, p, g, ch);
    WholeReceived(e, y, x, p, g, ch);
    BufferLane(e, y, x, p, g, ch);
    GoodTable(e, y, x);
    var a := Accept(x, p.key).x;
    if p.key.Some? {
      AcceptFits(x, p.key.value);
    }
    var capacity := if ch.IsOrdered() then ch.capacity.value else 1;
    if p.order.Some? {
      NewOrderer(e, x, p.lane, g, ch);
    }
    FirstDelivered(a, e.mine, p, g, capacity);
    TookAccepted(x, a, Deliver(a, e.mine, p.lane, g, p.order, p.payload).x, g, p);
    WholeIs(x, e.mine, p, g);
  }

  lemma WholeIs(x: Endpoint, prov: Provider, p: Packet, g: nat)
    requires Accept(x, p.key).out.Fine?
    ensures ReceiveWhole(x, prov, p.lane, g, Header(p.order, p.key), p.payload)
         == Deliver(Accept(x, p.key).x, prov, p.lane, g, p.order, p.payload)
  {
    hide Accept, Deliver;
  }

  lemma NewOrderer(e: Env, x: Endpoint, lane: Lane, g: nat, ch: Channel)
    requires OrderersReady(e, x) && x.state.Transfer? && LaneReady(e.mine, x, lane, g, ch) && ch.IsOrdered()
    ensures WindowOf(x, lane) == Some(O.NewWindow(ch.capacity.value))
  {
    OrderedLane(e, x, lane, g, ch);
    assert Behind(e.mine, x, lane.chan) == Some(ch);
  }

  lemma TookAccepted(x: Endpoint, a: Endpoint, x': Endpoint, g: nat, p: Packet)
    requires Took(a, x', g, p) && a.tx == x.tx && a.state == x.state && SameReceipts(x, a)
    ensures Took(x, x', g, p)
  {
  }

  lemma KeyFits(e: Env, y: Endpoint, p: Packet)
    requires PeerOk(e, y) && p in y.tx.sent
    ensures p.key.Some? ==> |[] + EncodeKey(p.key.value)| <= MAX_NON_SEGMENTED_PAYLOAD
  {
    hide PeerOk;
    PeerParts(e, y, p);
    if p.key.Some? {
      KeyLength(p.key.value);
    }
  }
}
