/** What holds of one endpoint, and of a receiving endpoint with respect to its peer. */
module Invariants {
  import opened Base
  import opened SlotKeys
  import opened Framing
  import opened Channels
  import opened Endpoints
  import opened Sending
  import opened Acknowledging
  import O = Ordering
  import J = Joining

  // ---- One endpoint ----

  ghost function AccKeys(rx: Rx): set<Key> {
    set a | a in rx.accepted :: a.key
  }

  ghost function AccIn(rx: Rx, stage: Stage): set<Key> {
    set a | a in rx.accepted && a.stage == stage :: a.key
  }

  function Announcements(listing: seq<Entry>): seq<Bytes> {
    seq(|listing|, i requires 0 <= i < |listing| => RegistrationPayload(listing[i].name, i)) + [FINAL_PAYLOAD]
  }

  ghost predicate ListingOk(prov: Provider, listing: seq<Entry>) {
    && DistinctEntries(listing) && |listing| < MANAGEMENT_ID_REGISTRATION
    && (forall i :: 0 <= i < |listing| ==>
          listing[i].name in prov.names && prov.names[listing[i].name] == listing[i].global && listing[i].name != [])
  }

  /// The local table and the announcements made follow the listing, as far as they go.
  ghost predicate AnnouncedOk(prov: Provider, x: Endpoint) {
    var listing, made, n := x.tx.listing, Lookup(x.tx.submitted, MANAGEMENT_LANE), |x.local.localToGlobal|;
    && ListingOk(prov, listing) && (made != [] ==> IsListing(prov, listing))
    && n <= |listing| && x.local == Appended(listing[..n])
    && IsPrefix(made, Announcements(listing))
    && (|made| <= n || (n == |listing| && |made| == n + 1))
    && (forall i :: 0 <= i < |made| && i < |listing| ==> |listing[i].name| <= MAX_NAME)
  }

  /// The announcement of the end is the packet with this key.
  ghost predicate FinalSent(sent: seq<Packet>, order: nat, key: Option<Key>) {
    exists p :: p in sent && p.lane == MANAGEMENT_LANE && p.order == Some(order) && p.key == key
  }

  /// Every channel is announced, and the end.
  ghost predicate AnnouncedAll(prov: Provider, x: Endpoint) {
    && IsListing(prov, x.tx.listing)
    && |x.local.localToGlobal| == |x.tx.listing|
    && Lookup(x.tx.submitted, MANAGEMENT_LANE) == Announcements(x.tx.listing)
    && AckLaneReady(prov, x.local)
    && FinalSent(x.tx.sent, |x.tx.listing|, x.tx.finalKey)
  }

  /// Packets of the transfer stage are only sent in it, after opening, and none for management.
  ghost predicate StagesOk(x: Endpoint) {
    && (forall p :: p in x.tx.sent && p.lane.stage.Tra? ==> x.state.Transfer?)
    && (forall p :: p in x.tx.sent && p.lane.stage.Tra? ==> p.lane.chan != x.local.management)
    && (x.state.Transfer? ==> x.tx.finalKey.Some?)
    && (x.state.Registration? ==> forall lane: Lane :: lane.stage.Tra? ==> Lookup(x.tx.submitted, lane) == [])
  }

  ghost predicate SelfInv(prov: Provider, x: Endpoint) {
    && TxInv(prov, x.local, x.tx, x.rx.noted)
    && BufferOk(x.ack, x.rx.noted)
    && AnnouncedOk(prov, x)
    && StagesOk(x)
    && (x.tx.finalKey.Some? ==> AnnouncedAll(prov, x))
  }

  /// An endpoint that has opened its connection.
  ghost predicate UpInv(prov: Provider, x: Endpoint) {
    && SelfInv(prov, x) && x.tx.finalKey.Some?
    && (forall n :: n in prov.names ==> prov.names[n] in x.rx.buffers)
    && |x.local.localToGlobal| <= |x.tx.orders.basic|
  }

  /// What a step of an endpoint can change for its peer: histories grow, transfer is final.
  ghost predicate Extends(x: Endpoint, x': Endpoint) {
    && TxGrows(x.tx, x'.tx)
    && IsPrefix(x.tx.released, x'.tx.released)
    && IsPrefix(x.rx.accepted, x'.rx.accepted) && x.rx.noted <= x'.rx.noted
    && x'.tx.listing == x.tx.listing && x'.tx.finalKey == x.tx.finalKey && x'.local == x.local
    && x'.tx.resender.capacity == x.tx.resender.capacity
    && (x.state.Transfer? ==> x'.state.Transfer?)
  }

  // ---- A receiver x and its peer y ----

  /// Every message on the lane was sent in one packet.
  ghost predicate Clean(y: Tx, lane: Lane) {
    forall p :: p in y.sent && p.lane == lane ==> p.seg.None?
  }

  ghost predicate FromPeer(sent: seq<Packet>, a: Accepted) {
    exists p :: p in sent && p.key == Some(a.key) && p.lane.stage == a.stage
  }

  ghost predicate AcceptOk(y: Endpoint, x: Endpoint) {
    && (forall a :: a in x.rx.accepted ==> FromPeer(y.tx.sent, a))
    && (forall i, j :: 0 <= i < j < |x.rx.accepted| ==> x.rx.accepted[i].key != x.rx.accepted[j].key)
    && x.rx.dup == AccIn(x.rx, StageOf(x.state)) && x.rx.noted <= AccKeys(x.rx)
    && (x.state.Registration? ==> forall a :: a in x.rx.accepted ==> a.stage.Reg?)
  }

  ghost function Registered(y: Endpoint, x: Endpoint): nat {
    var k := |Lookup(x.rx.handled, MANAGEMENT_LANE)|;
    if k <= |y.tx.listing| then k else |y.tx.listing|
  }

  /// The peer's table is what has been registered of its listing, by name.
  ghost predicate TableOk(prov: Provider, y: Endpoint, x: Endpoint) {
    var k, known := |Lookup(x.rx.handled, MANAGEMENT_LANE)|, y.tx.listing[..Registered(y, x)];
    && Known(known, prov)
    && x.rx.notLocal == Appended(Renamed(known, prov))
    && k <= |y.tx.listing| + 1
    && (x.state.Transfer? || x.state.receivedLast ==> k == |y.tx.listing| + 1)
  }

  /// The packet with this order on the lane has been accepted.
  ghost predicate OrderAccepted(y: Endpoint, x: Endpoint, lane: Lane, o: nat) {
    exists p :: p in y.tx.sent && p.lane == lane && p.order == Some(o) && p.key.Some? && p.key.value in AccKeys(x.rx)
  }

  /// Orders reach the orderer once each, with their packets accepted, and none is skipped.
  ghost predicate PushedOk(y: Endpoint, x: Endpoint, lane: Lane) {
    var pushed := Lookup(x.rx.pushed, lane);
    && Distinct(pushed)
    && (forall o :: o in pushed ==> OrderAccepted(y, x, lane, o))
    && (forall o :: 0 <= o < |Lookup(x.rx.handled, lane)| ==> o in pushed)
  }

  /// The window continues where the deliveries stopped and holds the peer's payloads.
  ghost predicate InFlight(y: Endpoint, x: Endpoint, lane: Lane, reliable: bool, w: O.Window) {
    var made := Lookup(y.tx.submitted, lane);
    && w.start == |Lookup(x.rx.handled, lane)|
    && (forall o :: o in w.pending ==> o < |made| && w.pending[o] == made[o])
    && (reliable ==> forall o :: o in w.pending ==> o in Lookup(x.rx.pushed, lane))
    && (reliable ==> forall o :: o in Lookup(x.rx.pushed, lane) ==> o < w.start || o in w.pending)
  }

  ghost predicate LaneOk(y: Endpoint, x: Endpoint, lane: Lane, reliable: bool) {
    Clean(y.tx, lane) ==>
      && IsPrefix(Lookup(x.rx.handled, lane), Lookup(y.tx.submitted, lane))
      && (reliable ==> PushedOk(y, x, lane))
      && (x.rx.orderers.Has(lane) && x.rx.orderers.At(lane).Some? ==>
            InFlight(y, x, lane, reliable, x.rx.orderers.At(lane).value))
  }

  /// The receiver's channel for a lane of the transfer stage.
  ghost function Behind(prov: Provider, x: Endpoint, c: nat): Option<Channel> {
    if c < |x.rx.notLocal.localToGlobal| then prov.ById(x.rx.notLocal.localToGlobal[c]) else None
  }

  ghost predicate LanesOk(prov: Provider, y: Endpoint, x: Endpoint) {
    && LaneOk(y, x, MANAGEMENT_LANE, true)
    && (forall c {:trigger Behind(prov, x, c)} ::
          Behind(prov, x, c).Some? && Behind(prov, x, c).value.IsOrdered() ==>
            LaneOk(y, x, Lane(Tra, c), Behind(prov, x, c).value.IsReliable()))
  }

  /// Every window holds what lies within it.
  ghost predicate WindowsOk(orderers: PerChannel<Option<O.Window>>) {
    forall lane {:trigger orderers.At(lane)} ::
      orderers.Has(lane) && orderers.At(lane).Some? ==> orderers.At(lane).value.Valid()
  }

  /// Windows are in order, and nothing is delivered in the transfer stage before it begins.
  ghost predicate QuietOk(x: Endpoint) {
    && WindowsOk(x.rx.orderers)
    && (x.state.Registration? ==> forall lane: Lane :: lane.stage.Tra? ==>
          && Lookup(x.rx.handled, lane) == [] && Lookup(x.rx.pushed, lane) == []
          && (WindowOf(x, lane).Some? ==> WindowOf(x, lane).value.pending == map[]))
  }

  ghost predicate HasLane(x: Endpoint, g: nat) {
    g in x.rx.notLocal.localToGlobal
  }

  /// A buffer holds what was handled on the one lane that leads to it.
  ghost predicate BuffersOk(x: Endpoint) {
    && (forall c :: 0 <= c < |x.rx.notLocal.localToGlobal| ==>
          Lookup(x.rx.handled, Lane(Tra, c)) == BufferOf(x.rx.buffers, x.rx.notLocal.localToGlobal[c]))
    && (forall g :: g in x.rx.buffers && x.rx.buffers[g] != [] ==> HasLane(x, g))
  }

  /// What a receiver makes of a message in segments, which it strips of headers a second time.
  ghost predicate Restripped(ch: Channel, message: Bytes, q: Bytes) {
    && |message| > MAX_NON_SEGMENTED_PAYLOAD && Chunks(message) != []
    && var r := Rejoin(ch.IsOrdered(), ch.IsReliable(), Chunks(message));
    && r.Joined? && r.payload == q
  }

  /// The payload is one of these, or what became of one that went out in segments.
  ghost predicate SentAs(made: seq<Bytes>, ch: Channel, q: Bytes) {
    q in made || exists m :: m in made && Restripped(ch, m, q)
  }

  /// What was handled on a lane and what waits in its orderer was sent on it.
  ghost predicate LaneRouted(made: seq<Bytes>, ch: Channel, handled: seq<Bytes>, w: Option<O.Window>) {
    && (forall q :: q in handled ==> SentAs(made, ch, q))
    && (ch.IsOrdered() && w.Some? ==> WindowRouted(made, ch, w.value))
  }

  ghost predicate WindowRouted(made: seq<Bytes>, ch: Channel, w: O.Window) {
    forall o :: o in w.pending ==> SentAs(made, ch, w.pending[o])
  }

  ghost predicate RoutedOn(y: Endpoint, x: Endpoint, lane: Lane, ch: Channel) {
    LaneRouted(Lookup(y.tx.submitted, lane), ch, Lookup(x.rx.handled, lane), WindowOf(x, lane))
  }

  ghost predicate RoutedOk(prov: Provider, y: Endpoint, x: Endpoint) {
    forall c {:trigger Behind(prov, x, c)} ::
      Behind(prov, x, c).Some? ==> RoutedOn(y, x, Lane(Tra, c), Behind(prov, x, c).value)
  }

  ghost predicate PartOk(y: Endpoint, key: nat, s: J.Segments) {
    && key < |y.tx.messages|
    && var parts := Chunks(y.tx.messages[key].payload);
    && |s.parts| == |parts|
    && (forall i :: 0 <= i < |parts| && s.parts[i].Some? ==> s.parts[i].value == parts[i])
  }

  /// Segments waiting to be joined are shares of the messages that the peer sent.
  ghost predicate JoiningOk(y: Endpoint, x: Endpoint) {
    && J.JoinerOk(x.rx.joiner)
    && (forall k :: k in x.rx.joiner ==> PartOk(y, k, x.rx.joiner[k]))
  }

  ghost predicate ReleasedOk(y: Endpoint, x: Endpoint) {
    forall k :: k in x.tx.released ==> k in y.rx.noted
  }

  /// Leaving registration: the final packet was acknowledged, or the peer had left already.
  ghost predicate HandshakeOk(y: Endpoint, x: Endpoint) {
    x.tx.finalKey.Some? ==>
      && (x.state.Registration? && x.state.lastKey.Some? ==> x.state.lastKey == x.tx.finalKey)
      && (x.state.Registration? && x.state.lastKey.None? ==> x.tx.finalKey.value in y.rx.noted)
      && (x.state.Transfer? ==> x.tx.finalKey.value in y.rx.noted || y.state.Transfer?)
  }

  ghost predicate RecvInv(prov: Provider, y: Endpoint, x: Endpoint) {
    && AcceptOk(y, x) && TableOk(prov, y, x) && LanesOk(prov, y, x) && QuietOk(x) && BuffersOk(x)
    && RoutedOk(prov, y, x) && JoiningOk(y, x) && ReleasedOk(y, x) && HandshakeOk(y, x)
  }

  // ---- The peer moves on ----

  lemma AccKeysGrow(rx: Rx, rx': Rx)
    requires IsPrefix(rx.accepted, rx'.accepted)
    ensures AccKeys(rx) <= AccKeys(rx')
  {
    PrefixIn(rx.accepted, rx'.accepted);
  }

  lemma LaneMoves(y: Endpoint, y': Endpoint, x: Endpoint, lane: Lane, reliable: bool)
    requires TxGrows(y.tx, y'.tx) && LaneOk(y, x, lane, reliable)
    ensures LaneOk(y', x, lane, reliable)
  {
    PrefixIn(y.tx.sent, y'.tx.sent);
    PrefixIn(Lookup(y.tx.submitted, lane), Lookup(y'.tx.submitted, lane));
    if Clean(y'.tx, lane) && reliable {
      forall o | o in Lookup(x.rx.pushed, lane)
        ensures OrderAccepted(y', x, lane, o)
      {
        assert OrderAccepted(y, x, lane, o);
      }
    }
  }

  lemma SentAsGrows(made: seq<Bytes>, made': seq<Bytes>, ch: Channel, q: Bytes)
    requires SentAs(made, ch, q) && IsPrefix(made, made')
    ensures SentAs(made', ch, q)
  {
    PrefixIn(made, made');
  }

  lemma RoutedMoves(prov: Provider, y: Endpoint, y': Endpoint, x: Endpoint)
    requires TxGrows(y.tx, y'.tx) && RoutedOk(prov, y, x)
    ensures RoutedOk(prov, y', x)
  {
    hide Restripped, SentAs;
    forall c | Behind(prov, x, c).Some?
      ensures RoutedOn(y', x, Lane(Tra, c), Behind(prov, x, c).value)
    {
      RoutedGrows(y, y', x, Lane(Tra, c), Behind(prov, x, c).value);
    }
  }

  lemma RoutedGrows(y: Endpoint, y': Endpoint, x: Endpoint, lane: Lane, ch: Channel)
    requires TxGrows(y.tx, y'.tx) && RoutedOn(y, x, lane, ch)
    ensures RoutedOn(y', x, lane, ch)
  {
    hide SentAs;
    var made, made' := Lookup(y.tx.submitted, lane), Lookup(y'.tx.submitted, lane);
    forall q | SentAs(made, ch, q)
      ensures SentAs(made', ch, q)
    {
      SentAsGrows(made, made', ch, q);
    }
  }

  lemma AcceptMoves(y: Endpoint, y': Endpoint, x: Endpoint)
    requires TxGrows(y.tx, y'.tx) && AcceptOk(y, x)
    ensures AcceptOk(y', x)
  {
    PrefixIn(y.tx.sent, y'.tx.sent);
    forall a | a in x.rx.accepted
      ensures FromPeer(y'.tx.sent, a)
    {
      assert FromPeer(y.tx.sent, a);
    }
  }

  /// A receiver's invariant survives whatever its peer does.
  lemma PeerMoves(prov: Provider, y: Endpoint, y': Endpoint, x: Endpoint)
    requires RecvInv(prov, y, x) && TxGrows(y.tx, y'.tx)
    requires y.rx.noted <= y'.rx.noted && (y.state.Transfer? ==> y'.state.Transfer?)
    requires y'.tx.listing == y.tx.listing
             || (y.tx.listing == [] && y.tx.sent == [] && Lookup(y.tx.submitted, MANAGEMENT_LANE) == [])
    ensures RecvInv(prov, y', x)
  {
    AcceptMoves(y, y', x);
    LaneMoves(y, y', x, MANAGEMENT_LANE, true);
    forall c | Behind(prov, x, c).Some? && Behind(prov, x, c).value.IsOrdered()
      ensures LaneOk(y', x, Lane(Tra, c), Behind(prov, x, c).value.IsReliable())
    {
      LaneMoves(y, y', x, Lane(Tra, c), Behind(prov, x, c).value.IsReliable());
    }
    RoutedMoves(prov, y, y', x);
    PrefixIn(y.tx.messages, y'.tx.messages);
    if y'.tx.listing != y.tx.listing {
      assert Clean(y.tx, MANAGEMENT_LANE);
      assert Lookup(x.rx.handled, MANAGEMENT_LANE) == [];
      assert y.tx.listing[..Registered(y, x)] == y'.tx.listing[..Registered(y', x)] == [];
    }
  }
}
