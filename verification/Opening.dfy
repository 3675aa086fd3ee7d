/** Opening a connection, the clock and the application keep an endpoint's invariants. */
module Opening {
  import opened Base
  import opened VarInt
  import opened Framing
  import opened Channels
  import opened Counting
  import opened Endpoints
  import opened Sending
  import opened Acknowledging
  import opened Invariants
  import opened Receiving
  import opened Delivering

  // ---- The clock ----

  lemma TickSelf(e: Env, x: Endpoint, delta: nat)
    requires UpInv(e.mine, x)
    ensures var r := Tick(x, delta);
            Extends(x, r.x) && OnlySends(x.tx, r.x.tx) && r.x.rx == x.rx && r.x.state == x.state
            && (r.x.tx.wrapped || UpInv(e.mine, r.x))
  {
    hide UpInv, TxInv, Flush, AckPayload, AckLaneReady, AccKeys, Extends, NewOn, Resend, TxGrows, R.Resender.Overflows;
    ExtendsRefl(x);
    if x.tx.resender.Overflows(delta) {
      OnlySendsRefl(x.tx);
      return;
    }
    UpParts(e, x);
    var acc, stage, tx := x.rx.noted, StageOf(x.state), Resend(x.tx, delta);
    ResendGood(e.mine, x.local, x.tx, acc, delta);
    FlushGood(e.mine, x.local, tx, acc, x.ack, stage);
    FlushOn(tx, x.ack, stage, x.local.ack);
    var r := Tick(x, delta);
    GrowsTrans(x.tx, tx, r.x.tx);
    ResendOn(x.tx, delta, r.x.tx, AckLaneOf(stage, x.local.ack));
    SendExtends(x, r.x);
    if !r.x.tx.wrapped {
      SendSelf(e, x, r.x, AckLaneOf(stage, x.local.ack));
    }
  }

  lemma OnlySendsRefl(tx: Tx)
    ensures OnlySends(tx, tx)
  {
  }

  lemma ResendOn(tx: Tx, delta: nat, tx': Tx, lane: Lane)
    requires NewOn(Resend(tx, delta), tx', lane)
    ensures NewOn(tx, tx', lane)
  {
    assert Resend(tx, delta).submitted == tx.submitted && Resend(tx, delta).sent == tx.sent;
  }

  lemma SentRecv(e: Env, y: Endpoint, x: Endpoint, x': Endpoint)
    requires RecvInv(e.mine, y, x) && x'.rx == x.rx && x'.state == x.state
    requires x'.tx.released == x.tx.released && x'.tx.finalKey == x.tx.finalKey
    ensures RecvInv(e.mine, y, x')
  {
    hide LanesOk, RoutedOk, BuffersOk, JoiningOk, TableOk, QuietOk, HandshakeOk, ReleasedOk;
    SendRecv(e, y, x, x');
  }

  lemma TickGood(e: Env, y: Endpoint, x: Endpoint, delta: nat)
    requires Good(e, y, x)
    ensures var r := Tick(x, delta); r.x.tx.wrapped || (Good(e, y, r.x) && Extends(x, r.x))
  {
    hide UpInv, RecvInv, Extends, Tick;
    TickSelf(e, x, delta);
    var r := Tick(x, delta);
    OnlySendsKeeps(x.tx, r.x.tx);
    SentRecv(e, y, x, r.x);
  }

  lemma OnlySendsKeeps(tx: Tx, tx': Tx)
    requires OnlySends(tx, tx')
    ensures |tx.orders.basic| <= |tx'.orders.basic|
    ensures tx'.released == tx.released && tx'.finalKey == tx.finalKey && tx'.listing == tx.listing
  {
  }

  // ---- The application ----

  /// A channel under a name of its own, neither of the two system channels.
  ghost predicate AppChannel(prov: Provider, g: nat) {
    exists n :: n in prov.names && prov.names[n] == g && n != ACK_NAME && n != MANAGEMENT_NAME
  }

  lemma AppLane(e: Env, x: Endpoint, g: nat)
    requires e.mine.WellFormed() && UpInv(e.mine, x) && AppChannel(e.mine, g)
    ensures x.state.Registration? ==> x.local.LocalId(Reg, g).None?
    ensures x.local.LocalId(Tra, g).Some? ==>
              var lane := Lane(Tra, x.local.LocalId(Tra, g).value);
              && LaneChannel(e.mine, x.local, lane) == e.mine.ById(g)
              && !IsAckLane(x.local, lane) && lane.chan != x.local.management
  {
    hide UpInv, Appended, StandsAt, DistinctEntries, AppChannel;
    var listing := x.tx.listing;
    UpTable(e.mine, x);
    AppendedShape(listing);
    AppGlobal(e.mine, g);
    var id := x.local.LocalId(Tra, g);
    if id.Some? {
      hide IsListing, Provider.WellFormed;
      assert x.local.localToGlobal[id.value] == g == listing[id.value].global;
      AppEntry(e.mine, listing, id.value);
      NotStanding(listing, ACK_NAME, id.value, x.local.ack);
      NotStanding(listing, MANAGEMENT_NAME, id.value, x.local.management);
    }
  }

  lemma UpTable(prov: Provider, x: Endpoint)
    requires UpInv(prov, x) && prov.WellFormed()
    ensures IsListing(prov, x.tx.listing) && DistinctEntries(x.tx.listing) && x.local == Appended(x.tx.listing)
    ensures |x.tx.listing| < NULL_ID
  {
    hide TxInv, BufferOk, StagesOk, IsListing, Appended, AckLaneReady;
    assert x.tx.listing[..|x.tx.listing|] == x.tx.listing;
  }

  lemma AppGlobal(prov: Provider, g: nat)
    requires prov.WellFormed() && AppChannel(prov, g)
    ensures g < MANAGEMENT_ID_REGISTRATION
  {
  }

  lemma AppEntry(prov: Provider, listing: seq<Entry>, i: nat)
    requires prov.WellFormed() && IsListing(prov, listing) && i < |listing| && AppChannel(prov, listing[i].global)
    ensures listing[i].name != ACK_NAME && listing[i].name != MANAGEMENT_NAME
  {
  }

  lemma NotStanding(listing: seq<Entry>, name: Bytes, i: nat, id: nat)
    requires StandsAt(listing, name, id) && i < |listing| < NULL_ID && listing[i].name != name
    ensures id != i
  {
  }

  lemma AppSendSelf(e: Env, x: Endpoint, g: nat, payload: Bytes)
    requires e.mine.WellFormed() && UpInv(e.mine, x) && AppChannel(e.mine, g)
    ensures var r := AppSend(x, e.mine, g, payload);
            Extends(x, r.x) && OnlySends(x.tx, r.x.tx) && r.x.rx == x.rx && r.x.state == x.state
            && (r.x.tx.wrapped || UpInv(e.mine, r.x))
  {
    hide UpInv, TxInv, AckPayload, AckLaneReady, AccKeys, Extends, NewOn, SendPacket, TxGrows, IsAckLane;
    UpParts(e, x);
    AppLane(e, x, g);
    ExtendsRefl(x);
    GrowsRefl(x.tx);
    var r := AppSend(x, e.mine, g, payload);
    var local := x.local.LocalId(StageOf(x.state), g);
    if local.Some? && e.mine.ById(g).Some? {
      var lane, ch := Lane(Tra, local.value), e.mine.ById(g).value;
      SendPacketGood(e.mine, x.local, x.tx, x.rx.noted, ch, lane, payload);
      SendPacketOn(x.tx, ch, lane, payload);
      SendExtends(x, r.x);
      if !r.x.tx.wrapped {
        SendSelf(e, x, r.x, lane);
      }
    }
  }

  lemma GrowsRefl(tx: Tx)
    ensures OnlySends(tx, tx)
  {
  }

  lemma AppSendGood(e: Env, y: Endpoint, x: Endpoint, g: nat, payload: Bytes)
    requires e.mine.WellFormed() && Good(e, y, x) && AppChannel(e.mine, g)
    ensures var r := AppSend(x, e.mine, g, payload); r.x.tx.wrapped || (Good(e, y, r.x) && Extends(x, r.x))
  {
    hide UpInv, RecvInv, Extends, AppSend, AppChannel;
    AppSendSelf(e, x, g, payload);
    var r := AppSend(x, e.mine, g, payload);
    OnlySendsKeeps(x.tx, r.x.tx);
    SentRecv(e, y, x, r.x);
  }

  // ---- Opening: the announcements one by one ----

  /// Nothing belongs to the transfer stage yet.
  ghost predicate NoTransferYet(tx: Tx) {
    && (forall p :: p in tx.sent ==> p.lane == MANAGEMENT_LANE)
    && (forall lane: Lane :: lane.stage.Tra? ==> Lookup(tx.submitted, lane) == [])
    && (forall lane: Lane {:trigger tx.orders.Has(lane)} ::
          lane.stage.Tra? && tx.orders.Has(lane) ==> tx.orders.At(lane) == 0)
  }

  /// The table may grow while nothing depends on it.
  lemma TableGrows(prov: Provider, local: Ids, local': Ids, tx: Tx)
    requires TxInv(prov, local, tx, {}) && NoTransferYet(tx)
    ensures TxInv(prov, local', tx, {})
  {
    hide SlotsOk, KeysDistinct, OrdersDistinct, OnWire;
    forall p | p in tx.sent
      ensures PacketOk(prov, local', tx, {}, p)
    {
      assert PacketOk(prov, local, tx, {}, p);
    }
    forall l {:trigger Lookup(tx.submitted, l)} |
           LaneChannel(prov, local', l).Some? && LaneChannel(prov, local', l).value.IsOrdered()
      ensures if tx.orders.Has(l) then tx.orders.At(l) == |Lookup(tx.submitted, l)| < U32
              else Lookup(tx.submitted, l) == []
    {
      if l.stage.Reg? {
        assert LaneChannel(prov, local, l) == LaneChannel(prov, local', l);
      }
    }
  }

  /// An order counter for a new lane starts at the number of its payloads, zero.
  lemma CounterAdded(prov: Provider, local: Ids, tx: Tx, i: nat)
    requires TxInv(prov, local, tx, {}) && NoTransferYet(tx)
    ensures var t := tx.(orders := tx.orders.Set(i, 0, 0));
            TxInv(prov, local, t, {}) && NoTransferYet(t) && OnlySends(tx, t)
  {
    hide SlotsOk, KeysDistinct, OrdersDistinct, OnWire, PacketOk;
    var t := tx.(orders := tx.orders.Set(i, 0, 0));
    forall l: Lane | l.stage.Tra? && t.orders.Has(l)
      ensures t.orders.At(l) == 0
    {
      if l.chan < |tx.orders.basic| {
        assert tx.orders.Has(l);
      }
    }
    PacketsGrow(prov, local, tx, t, {}, {});
    forall l {:trigger Lookup(t.submitted, l)} |
           LaneChannel(prov, local, l).Some? && LaneChannel(prov, local, l).value.IsOrdered()
      ensures if t.orders.Has(l) then t.orders.At(l) == |Lookup(t.submitted, l)| < U32 else Lookup(t.submitted, l) == []
    {
      assert Lookup(t.submitted, l) == Lookup(tx.submitted, l);
    }
  }

  /// No packet has left the resender yet.
  ghost predicate Young(tx: Tx) {
    tx.resender.slots.free == [] && |tx.resender.slots.generations| == |tx.resender.slots.values|
  }

  /// A short payload on the channel of announcements: one keyed packet, or none if the resender is full.
  lemma AnnouncementShape(tx: Tx, payload: Bytes)
    requires |payload| <= MAX_NON_SEGMENTED_PAYLOAD
    ensures var r := SendPacket(tx, MANAGEMENT_CHANNEL, MANAGEMENT_LANE, payload);
            && r.tx.submitted == Log(tx.submitted, MANAGEMENT_LANE, payload)
            && r.tx.orders.basic == tx.orders.basic
            && (Young(tx) ==> !r.out.Crash? && Young(r.tx))
            && (r.out.Fine? ==> r.key.Some? && FinalSent(r.tx.sent, tx.orders.management, r.key))
  {
    hide Frame, Chunks;
    var r := SendPacket(tx, MANAGEMENT_CHANNEL, MANAGEMENT_LANE, payload);
    if r.out.Fine? {
      assert r.tx.sent[|tx.sent|].order == Some(tx.orders.management) && r.tx.sent[|tx.sent|].key == r.key;
    }
  }

  lemma StillNoTransfer(tx: Tx, tx': Tx)
    requires NoTransferYet(tx) && NewOn(tx, tx', MANAGEMENT_LANE) && tx'.orders.basic == tx.orders.basic
    ensures NoTransferYet(tx')
  {
    forall lane: Lane | lane.stage.Tra? && tx'.orders.Has(lane)
      ensures tx'.orders.At(lane) == 0
    {
      assert tx.orders.Has(lane);
    }
  }

  lemma ManagementCounter(prov: Provider, local: Ids, tx: Tx)
    requires TxInv(prov, local, tx, {})
    ensures tx.orders.management == |Lookup(tx.submitted, MANAGEMENT_LANE)|
  {
    hide PacketOk, SlotsOk, KeysDistinct, OrdersDistinct, OnWire;
    assert tx.orders.Has(MANAGEMENT_LANE);
    assert LaneChannel(prov, local, MANAGEMENT_LANE) == Some(MANAGEMENT_CHANNEL);
  }

  lemma SendAnnouncement(prov: Provider, local: Ids, tx: Tx, payload: Bytes)
    requires TxInv(prov, local, tx, {}) && NoTransferYet(tx) && |payload| <= MAX_NON_SEGMENTED_PAYLOAD
    ensures var r := SendPacket(tx, MANAGEMENT_CHANNEL, MANAGEMENT_LANE, payload);
            && OnlySends(tx, r.tx) && NoTransferYet(r.tx)
            && (r.tx.wrapped || TxInv(prov, local, r.tx, {}))
            && Lookup(r.tx.submitted, MANAGEMENT_LANE) == Lookup(tx.submitted, MANAGEMENT_LANE) + [payload]
            && (r.out.Fine? ==>
                  r.key.Some? && FinalSent(r.tx.sent, |Lookup(tx.submitted, MANAGEMENT_LANE)|, r.key))
  {
    hide TxInv, SendPacket, NoTransferYet, NewOn, OnlySends, FinalSent;
    ManagementCounter(prov, local, tx);
    SendPacketGood(prov, local, tx, {}, MANAGEMENT_CHANNEL, MANAGEMENT_LANE, payload);
    SendPacketOn(tx, MANAGEMENT_CHANNEL, MANAGEMENT_LANE, payload);
    AnnouncementShape(tx, payload);
    StillNoTransfer(tx, SendPacket(tx, MANAGEMENT_CHANNEL, MANAGEMENT_LANE, payload).tx);
  }

  /// The endpoint has announced the first `i` channels and nothing else has happened.
  ghost predicate Announcing(prov: Provider, listing: seq<Entry>, x: Endpoint, i: nat) {
    && i <= |listing| && i <= |x.tx.orders.basic|
    && x.state == Registration(false, None) && x.ack == []
    && x.tx.listing == listing && x.tx.finalKey.None? && x.tx.released == [] && !x.tx.wrapped
    && TxInv(prov, x.local, x.tx, {}) && NoTransferYet(x.tx)
    && x.local == Appended(listing[..i])
    && Lookup(x.tx.submitted, MANAGEMENT_LANE) == Announcements(listing)[..i]
    && (forall j :: 0 <= j < i ==> |listing[j].name| <= MAX_NAME)
    && x.rx == NewEndpoint().rx.(buffers := x.rx.buffers)
    && (forall g :: g in x.rx.buffers ==> x.rx.buffers[g] == [])
    && (forall j :: 0 <= j < i ==> listing[j].global in x.rx.buffers)
  }

  /// What is known of an endpoint whose opening failed: its announcements are true as far as they go.
  ghost predicate Unopened(prov: Provider, x: Endpoint) {
    && SelfInv(prov, x) && Untouched(x)
  }

  /// An endpoint that has received nothing.
  ghost predicate Untouched(x: Endpoint) {
    && x.state.Registration? && !x.state.receivedLast
    && x.rx == NewEndpoint().rx.(buffers := x.rx.buffers)
    && (forall g :: g in x.rx.buffers ==> x.rx.buffers[g] == [])
    && x.tx.released == []
    && x.state.lastKey == x.tx.finalKey
  }

  lemma UntouchedRecv(prov: Provider, y: Endpoint, x: Endpoint)
    requires Untouched(x)
    ensures RecvInv(prov, y, x)
  {
    assert y.tx.listing[..0] == [];
    assert Renamed([], prov) == [];
    assert AccIn(x.rx, Reg) == {};
  }

  /// `n` channels are in the table and the first `k` announcements are made.
  ghost predicate Partway(prov: Provider, listing: seq<Entry>, x: Endpoint, n: nat, k: nat) {
    && x.tx.listing == listing
    && n <= |listing| && x.local == Appended(listing[..n])
    && k <= |listing| + 1 && Lookup(x.tx.submitted, MANAGEMENT_LANE) == Announcements(listing)[..k]
    && (k <= n || (n == |listing| && k == n + 1))
    && (forall j :: 0 <= j < k && j < |listing| ==> |listing[j].name| <= MAX_NAME)
  }

  lemma PartwayAnnounced(prov: Provider, listing: seq<Entry>, x: Endpoint, n: nat, k: nat)
    requires prov.WellFormed() && IsListing(prov, listing) && Partway(prov, listing, x, n, k)
    ensures AnnouncedOk(prov, x)
  {
    hide Appended;
    ListingDistinct(prov, listing);
    ListingGood(prov, listing);
    hide ListingOk, IsListing;
  }

  lemma ListingGood(prov: Provider, listing: seq<Entry>)
    requires prov.WellFormed() && IsListing(prov, listing) && DistinctEntries(listing)
    ensures ListingOk(prov, listing)
  {
    hide DistinctEntries;
  }

  lemma AnnouncingSelf(prov: Provider, listing: seq<Entry>, x: Endpoint, n: nat, k: nat)
    requires prov.WellFormed() && IsListing(prov, listing) && Partway(prov, listing, x, n, k)
    requires x.state.Registration? && x.ack == [] && x.tx.finalKey.None?
    requires TxInv(prov, x.local, x.tx, {}) && NoTransferYet(x.tx) && x.rx.noted == {}
    ensures SelfInv(prov, x)
  {
    NothingBuffered({});
    PartwayAnnounced(prov, listing, x, n, k);
    NothingYet(x);
    hide TxInv, BufferOk, AnnouncedOk, AnnouncedAll, AccKeys, Partway, IsListing, StagesOk, NoTransferYet;
  }

  lemma NothingYet(x: Endpoint)
    requires x.state.Registration? && NoTransferYet(x.tx)
    ensures StagesOk(x)
  {
    forall lane: Lane | lane.stage.Tra?
      ensures Lookup(x.tx.submitted, lane) == []
    {
    }
  }

  lemma RegistrationShort(name: Bytes, i: nat)
    requires |name| <= MAX_NAME && i < U32
    ensures |RegistrationPayload(name, i)| <= MAX_NON_SEGMENTED_PAYLOAD
  {
    EncodeAtMost5(|name|);
    EncodeAtMost5(i);
  }

  lemma OneMore(listing: seq<Entry>, i: nat)
    requires i < |listing|
    ensures Announcements(listing)[..i + 1] == Announcements(listing)[..i] + [RegistrationPayload(listing[i].name, i)]
    ensures listing[..i + 1] == listing[..i] + [listing[i]]
    ensures Appended(listing[..i]).Insert(i, listing[i].global, listing[i].name) == Some(Appended(listing[..i + 1]))
  {
    hide RegistrationPayload, Appended;
    assert listing[..i + 1] == listing[..i] + [listing[i]];
    AppendedSnoc(listing[..i], listing[i]);
  }

  /// A failure leaves the announcements made so far true.
  lemma Stopped(prov: Provider, listing: seq<Entry>, x: Endpoint, x': Endpoint, n: nat, k: nat)
    requires prov.WellFormed() && IsListing(prov, listing) && Partway(prov, listing, x', n, k)
    requires Quiet(listing, x) && x'.state == x.state && x'.ack == x.ack && x'.rx == x.rx && OnlySends(x.tx, x'.tx)
    requires TxInv(prov, x'.local, x'.tx, {}) && NoTransferYet(x'.tx)
    ensures Unopened(prov, x')
  {
    hide TxInv, NoTransferYet, IsListing, Partway, SelfInv, TxGrows;
    AnnouncingSelf(prov, listing, x', n, k);
  }

  lemma Announced(prov: Provider, listing: seq<Entry>, x: Endpoint, x': Endpoint, i: nat)
    requires i < |listing| && Announcing(prov, listing, x, i) && |listing[i].name| <= MAX_NAME
    requires x'.state == x.state && x'.ack == x.ack && OnlySends(x.tx, x'.tx) && !x'.tx.wrapped
    requires TxInv(prov, x'.local, x'.tx, {}) && NoTransferYet(x'.tx) && x'.local == Appended(listing[..i + 1])
    requires Lookup(x'.tx.submitted, MANAGEMENT_LANE) == Announcements(listing)[..i + 1]
    requires x'.rx == x.rx.(buffers := x.rx.buffers[listing[i].global := []]) && i + 1 <= |x'.tx.orders.basic|
    ensures Announcing(prov, listing, x', i + 1)
  {
    hide TxInv, NoTransferYet, Announcements, Appended, TxGrows;
  }

  lemma AnnounceOneGood(prov: Provider, listing: seq<Entry>, x: Endpoint, i: nat)
    requires prov.WellFormed() && IsListing(prov, listing) && Announcing(prov, listing, x, i) && i < |listing|
    ensures var r := AnnounceOne(x, listing[i], i);
            r.x.tx.wrapped || (if r.out.Fine? then Announcing(prov, listing, r.x, i + 1) else Unopened(prov, r.x))
  {
    hide TxInv, NoTransferYet, Appended, IsListing, SendPacket, Announcements, SelfInv, RegistrationPayload, Announcing,
         Unopened, Partway, OnlySends, Quiet;
    AnnouncingParts(prov, listing, x, i);
    var e := listing[i];
    var ids := Appended(listing[..i + 1]);
    OneMore(listing, i);
    TableGrows(prov, x.local, ids, x.tx);
    if |e.name| > MAX_NAME {
      GrowsRefl(x.tx);
      PartwayAt(prov, listing, x, x.(local := ids), i, i);
      Stopped(prov, listing, x, x.(local := ids), i + 1, i);
    } else {
      ListingLength(prov, listing);
      RegistrationShort(e.name, i);
      SendAnnouncement(prov, ids, x.tx, RegistrationPayload(e.name, i));
      var s := SendPacket(x.tx, MANAGEMENT_CHANNEL, MANAGEMENT_LANE, RegistrationPayload(e.name, i));
      if !s.tx.wrapped {
        var r := AnnounceOne(x, e, i);
        if s.out.Fine? {
          CounterAdded(prov, ids, s.tx, i);
          OnlySendsTrans(x.tx, s.tx, r.x.tx);
          Announced(prov, listing, x, r.x, i);
        } else {
          OnlySendsKeeps(x.tx, s.tx);
          PartwayAt(prov, listing, x, r.x, i, i + 1);
          Stopped(prov, listing, x, r.x, i + 1, i + 1);
        }
      }
    }
  }

  lemma OnlySendsTrans(a: Tx, b: Tx, c: Tx)
    requires OnlySends(a, b) && OnlySends(b, c)
    ensures OnlySends(a, c)
  {
    GrowsTrans(a, b, c);
  }

  /// Nothing has been received, and the end is not announced.
  ghost predicate Quiet(listing: seq<Entry>, x: Endpoint) {
    && x.state == Registration(false, None) && x.ack == []
    && x.tx.listing == listing && x.tx.finalKey.None? && x.tx.released == []
    && x.rx == NewEndpoint().rx.(buffers := x.rx.buffers)
    && (forall g :: g in x.rx.buffers ==> x.rx.buffers[g] == [])
  }

  lemma AnnouncingParts(prov: Provider, listing: seq<Entry>, x: Endpoint, i: nat)
    requires Announcing(prov, listing, x, i)
    ensures Quiet(listing, x) && TxInv(prov, x.local, x.tx, {}) && NoTransferYet(x.tx) && i <= |listing|
    ensures x.local == Appended(listing[..i]) && !x.tx.wrapped
    ensures i <= |Announcements(listing)| && Lookup(x.tx.submitted, MANAGEMENT_LANE) == Announcements(listing)[..i]
  {
    hide TxInv, NoTransferYet, Appended;
  }

  lemma PartwayAt(prov: Provider, listing: seq<Entry>, x: Endpoint, x': Endpoint, i: nat, k: nat)
    requires Announcing(prov, listing, x, i) && i < |listing|
    requires k == i || (k == i + 1 && |listing[i].name| <= MAX_NAME)
    requires x'.tx.listing == x.tx.listing && x'.local == Appended(listing[..i + 1])
    requires Lookup(x'.tx.submitted, MANAGEMENT_LANE) == Announcements(listing)[..k]
    ensures Partway(prov, listing, x', i + 1, k)
  {
    hide TxInv, NoTransferYet, Appended;
  }

  lemma ListingLength(prov: Provider, listing: seq<Entry>)
    requires prov.WellFormed() && IsListing(prov, listing)
    ensures |listing| < MANAGEMENT_ID_REGISTRATION < U32
  {
  }

  lemma {:induction false} AnnounceFromGood(prov: Provider, listing: seq<Entry>, x: Endpoint, i: nat)
    requires prov.WellFormed() && IsListing(prov, listing) && Announcing(prov, listing, x, i)
    ensures var r := AnnounceFrom(x, listing, i);
            r.x.tx.wrapped || (if r.out.Fine? then Announcing(prov, listing, r.x, |listing|) else Unopened(prov, r.x))
    decreases |listing| - i
  {
    AnnouncingBound(prov, listing, x, i);
    hide Announcing, Unopened, IsListing, AnnounceOne, Counted, Tallied;
    if i < |listing| {
      AnnounceOneGood(prov, listing, x, i);
      var r := AnnounceOne(x, listing[i], i);
      if r.out.Fine? {
        if r.x.tx.wrapped {
          AnnounceFromOnward(r.x, listing, i + 1);
        } else {
          AnnounceFromGood(prov, listing, r.x, i + 1);
        }
      }
    }
  }

  lemma AnnouncingBound(prov: Provider, listing: seq<Entry>, x: Endpoint, i: nat)
    requires Announcing(prov, listing, x, i)
    ensures i <= |listing|
  {
  }

  lemma AckLaneFound(prov: Provider, listing: seq<Entry>, local: Ids)
    requires prov.WellFormed() && IsListing(prov, listing) && local == Appended(listing)
    ensures AckLaneReady(prov, local)
  {
    hide DistinctEntries, Appended;
    ListingDistinct(prov, listing);
    AppendedShape(listing);
    var i := AckListed(prov, listing);
    assert local.ack != NULL_ID;
    AckEntry(prov, listing, local.ack);
  }

  lemma AckListed(prov: Provider, listing: seq<Entry>) returns (i: nat)
    requires prov.WellFormed() && IsListing(prov, listing)
    ensures |listing| < NULL_ID && i < |listing| && listing[i].name == ACK_NAME
  {
    var j :| 0 <= j < |listing| && listing[j].name == ACK_NAME;
    i := j;
  }

  lemma AckEntry(prov: Provider, listing: seq<Entry>, i: nat)
    requires prov.WellFormed() && IsListing(prov, listing) && i < |listing| && listing[i].name == ACK_NAME
    ensures prov.ById(listing[i].global) == Some(ACK_CHANNEL)
  {
  }

  lemma AnnounceEndGood(prov: Provider, listing: seq<Entry>, x: Endpoint)
    requires prov.WellFormed() && IsListing(prov, listing) && Announcing(prov, listing, x, |listing|)
    ensures var r := AnnounceEnd(x);
            r.x.tx.wrapped || (if r.out.Fine? then UpInv(prov, r.x) && Untouched(r.x) else Unopened(prov, r.x))
  {
    hide TxInv, NoTransferYet, Appended, SendPacket, Announcements, SelfInv, AckLaneReady, Announcing, UpInv, IsListing,
         OnlySends, Partway, Unopened, FinalSent;
    AnnouncingParts(prov, listing, x, |listing|);
    AllAnnounced(prov, listing, x);
    SendAnnouncement(prov, x.local, x.tx, FINAL_PAYLOAD);
    var s := SendPacket(x.tx, MANAGEMENT_CHANNEL, MANAGEMENT_LANE, FINAL_PAYLOAD);
    var r, y := AnnounceEnd(x), x.(tx := s.tx);
    if !s.tx.wrapped {
      OnlySendsKeeps(x.tx, s.tx);
      PartwayEnd(prov, listing, x, y);
      Stopped(prov, listing, x, y, |listing|, |listing| + 1);
      UnopenedSelf(prov, y);
      if r.out.Fine? {
        AckLaneFound(prov, listing, x.local);
        Finished(prov, listing, y, r.x);
      }
    }
  }

  lemma UnopenedSelf(prov: Provider, x: Endpoint)
    requires Unopened(prov, x)
    ensures SelfInv(prov, x)
  {
    hide SelfInv;
  }

  lemma AllAnnounced(prov: Provider, listing: seq<Entry>, x: Endpoint)
    requires Announcing(prov, listing, x, |listing|)
    ensures x.local == Appended(listing)
    ensures Lookup(x.tx.submitted, MANAGEMENT_LANE) + [FINAL_PAYLOAD] == Announcements(listing)
    ensures |Lookup(x.tx.submitted, MANAGEMENT_LANE)| == |listing| <= |x.tx.orders.basic|
    ensures forall j :: 0 <= j < |listing| ==> listing[j].global in x.rx.buffers
  {
    hide TxInv, NoTransferYet, Appended;
    assert listing[..|listing|] == listing;
    assert Announcements(listing)[..|listing|] + [FINAL_PAYLOAD] == Announcements(listing);
  }

  lemma PartwayEnd(prov: Provider, listing: seq<Entry>, x: Endpoint, x': Endpoint)
    requires Announcing(prov, listing, x, |listing|) && x'.tx.listing == x.tx.listing && x'.local == x.local
    requires Lookup(x'.tx.submitted, MANAGEMENT_LANE) == Announcements(listing)
    ensures Partway(prov, listing, x', |listing|, |listing| + 1)
  {
    hide TxInv, NoTransferYet, Appended;
    assert Announcements(listing)[..|listing| + 1] == Announcements(listing);
  }

  lemma Finished(prov: Provider, listing: seq<Entry>, x: Endpoint, x': Endpoint)
    requires IsListing(prov, listing) && SelfInv(prov, x) && x.tx.listing == listing && x.local == Appended(listing)
    requires NoTransferYet(x.tx) && x.state == Registration(false, None) && AckLaneReady(prov, x.local)
    requires Lookup(x.tx.submitted, MANAGEMENT_LANE) == Announcements(listing)
    requires x'.tx == x.tx.(finalKey := x'.tx.finalKey) && x'.tx.finalKey.Some?
    requires x'.state == Registration(false, x'.tx.finalKey)
    requires x'.local == x.local && x'.rx == x.rx && x'.ack == x.ack
    requires forall j :: 0 <= j < |listing| ==> listing[j].global in x.rx.buffers
    requires FinalSent(x'.tx.sent, |listing|, x'.tx.finalKey) && |listing| <= |x.tx.orders.basic|
    ensures UpInv(prov, x')
  {
    hide TxInv, BufferOk, Announcements, Appended, AckLaneReady, SelfInv, AnnouncedOk, IsListing, FinalSent;
    FinalKeySelf(prov, x, x');
    FinishedSelf(prov, listing, x, x');
    AllBuffered(prov, listing, x'.rx.buffers);
  }

  lemma FinishedSelf(prov: Provider, listing: seq<Entry>, x: Endpoint, x': Endpoint)
    requires IsListing(prov, listing) && x.tx.listing == listing && x.local == Appended(listing)
    requires NoTransferYet(x.tx) && AckLaneReady(prov, x.local)
    requires Lookup(x.tx.submitted, MANAGEMENT_LANE) == Announcements(listing)
    requires x'.tx == x.tx.(finalKey := x'.tx.finalKey) && x'.tx.finalKey.Some? && x'.state.Registration?
    requires x'.local == x.local && FinalSent(x'.tx.sent, |listing|, x'.tx.finalKey)
    requires TxInv(prov, x'.local, x'.tx, x'.rx.noted) && BufferOk(x'.ack, x'.rx.noted) && AnnouncedOk(prov, x')
    ensures SelfInv(prov, x')
  {
    hide TxInv, BufferOk, Announcements, AckLaneReady, AnnouncedOk, IsListing, FinalSent, AnnouncedAll, StagesOk,
         NoTransferYet;
    StillNothing(x, x');
    AllInPlace(prov, listing, x');
  }

  lemma StillNothing(x: Endpoint, x': Endpoint)
    requires NoTransferYet(x.tx) && x'.tx == x.tx.(finalKey := x'.tx.finalKey) && x'.state.Registration?
    ensures StagesOk(x')
  {
    forall lane: Lane | lane.stage.Tra? && x'.tx.orders.Has(lane)
      ensures x'.tx.orders.At(lane) == 0
    {
      assert x.tx.orders.Has(lane);
    }
    NothingYet(x');
  }

  lemma AllInPlace(prov: Provider, listing: seq<Entry>, x: Endpoint)
    requires IsListing(prov, listing) && x.tx.listing == listing && x.local == Appended(listing)
    requires Lookup(x.tx.submitted, MANAGEMENT_LANE) == Announcements(listing)
    requires AckLaneReady(prov, x.local) && FinalSent(x.tx.sent, |listing|, x.tx.finalKey)
    ensures AnnouncedAll(prov, x)
  {
    hide IsListing, Announcements, AckLaneReady, FinalSent;
  }

  lemma AllBuffered(prov: Provider, listing: seq<Entry>, buffers: map<nat, seq<Bytes>>)
    requires IsListing(prov, listing) && forall j :: 0 <= j < |listing| ==> listing[j].global in buffers
    ensures forall n :: n in prov.names ==> prov.names[n] in buffers
  {
    forall n | n in prov.names
      ensures prov.names[n] in buffers
    {
      var j :| 0 <= j < |listing| && listing[j].name == n;
      assert listing[j].global in buffers;
    }
  }

  lemma FinalKeySelf(prov: Provider, x: Endpoint, x': Endpoint)
    requires SelfInv(prov, x)
    requires x'.tx == x.tx.(finalKey := x'.tx.finalKey) && x'.local == x.local && x'.rx == x.rx && x'.ack == x.ack
    ensures TxInv(prov, x'.local, x'.tx, x'.rx.noted) && BufferOk(x'.ack, x'.rx.noted) && AnnouncedOk(prov, x')
  {
    hide SlotsOk, KeysDistinct, OrdersDistinct, OnWire, CountersOk, BufferOk;
    PacketsGrow(prov, x.local, x.tx, x'.tx, x.rx.noted, x.rx.noted);
  }

  /// Whatever comes of opening a connection, the endpoint is sound; a success makes it ready.
  lemma InitializeGood(prov: Provider, listing: seq<Entry>)
    requires prov.WellFormed() && IsListing(prov, listing)
    ensures var r := Initialize(NewEndpoint(), prov, listing);
            r.x.tx.wrapped || (Untouched(r.x) && if r.out.Fine? then UpInv(prov, r.x) else SelfInv(prov, r.x))
  {
    var x := WithListing(NewEndpoint(), prov, listing);
    StartAnnouncing(prov, listing);
    hide Announcing, IsListing, UpInv, SelfInv, AnnounceFrom, AnnounceEnd, Untouched, Counted, Tallied, TooRoomy;
    NewSelf(prov);
    AnnounceFromGood(prov, listing, x, 0);
    var r := AnnounceFrom(x, listing, 0);
    if r.out.Fine? {
      if r.x.tx.wrapped {
        AnnounceEndOnward(r.x);
      } else {
        AnnounceEndGood(prov, listing, r.x);
      }
    }
  }

  lemma {:induction false} AnnounceCalm(x: Endpoint, listing: seq<Entry>, i: nat)
    requires |x.local.localToGlobal| == i <= |listing| < U32 && Young(x.tx)
    ensures !AnnounceFrom(x, listing, i).out.Crash? && Young(AnnounceFrom(x, listing, i).x.tx)
    decreases |listing| - i
  {
    hide SendPacket, RegistrationPayload;
    if i < |listing| {
      var e := listing[i];
      var r := AnnounceOne(x, e, i);
      if |e.name| <= MAX_NAME {
        RegistrationShort(e.name, i);
        AnnouncementShape(x.tx, RegistrationPayload(e.name, i));
      }
      if r.out.Fine? {
        AnnounceCalm(r.x, listing, i + 1);
      }
    }
  }

  lemma EndCalm(x: Endpoint)
    requires Young(x.tx)
    ensures !AnnounceEnd(x).out.Crash?
  {
    hide SendPacket;
    AnnouncementShape(x.tx, FINAL_PAYLOAD);
  }

  /// Opening a connection panics if and only if the capacities of its channels overflow.
  lemma InitializeExactly(prov: Provider, listing: seq<Entry>)
    requires prov.WellFormed() && IsListing(prov, listing)
    ensures Initialize(NewEndpoint(), prov, listing).out.Crash? <==> TooRoomy(NewEndpoint(), prov, listing)
  {
    hide AnnounceFrom, AnnounceEnd, TooRoomy;
    ListingLength(prov, listing);
    var x := WithListing(NewEndpoint(), prov, listing);
    AnnounceCalm(x, listing, 0);
    EndCalm(AnnounceFrom(x, listing, 0).x);
  }

  lemma StartAnnouncing(prov: Provider, listing: seq<Entry>)
    ensures Announcing(prov, listing, WithListing(NewEndpoint(), prov, listing), 0)
  {
    var x := WithListing(NewEndpoint(), prov, listing);
    assert listing[..0] == [] && Announcements(listing)[..0] == [];
    assert Appended([]) == EmptyIds();
    assert MANAGEMENT_CHANNEL.IsOrdered();
  }

  lemma NewSelf(prov: Provider)
    ensures SelfInv(prov, NewEndpoint()) && Untouched(NewEndpoint())
  {
    hide TxInv, BufferOk, AnnouncedOk;
    NewTx(prov);
    NothingBuffered({});
    NewAnnounced(prov);
  }

  lemma NewTx(prov: Provider)
    ensures TxInv(prov, EmptyIds(), NewEndpoint().tx, {})
  {
  }

  lemma NewAnnounced(prov: Provider)
    ensures AnnouncedOk(prov, NewEndpoint())
  {
    assert Appended([]) == EmptyIds();
  }
}
