/** What the protocol itself guarantees in every reachable state: tables, keys, orders, the handshake. */
module Protocol {
  import opened Base
  import opened SlotKeys
  import opened Framing
  import opened Channels
  import opened Endpoints
  import opened Sending
  import opened Acknowledging
  import opened Invariants
  import opened Receiving
  import opened Delivering
  import opened Arriving
  import opened Opening
  import opened Systems
  import opened Guarantees

  // ---- Registration ----

  /// The receiver's id `c` for its peer's channels stands for the channel of this name on both sides.
  ghost predicate NamedAt(e: Env, y: Endpoint, x: Endpoint, c: nat, name: Bytes) {
    && name in e.mine.names && name in e.theirs.names
    && c < |x.rx.notLocal.localToGlobal| && x.rx.notLocal.localToGlobal[c] == e.mine.names[name]
    && c < |y.local.localToGlobal| && y.local.localToGlobal[c] == e.theirs.names[name]
    && y.local.LocalId(Tra, e.theirs.names[name]) == Some(c)
    && x.rx.notLocal.LocalId(Tra, e.mine.names[name]) == Some(c)
  }

  ghost predicate Named(e: Env, y: Endpoint, x: Endpoint, c: nat) {
    exists name :: NamedAt(e, y, x, c, name)
  }

  /// The receiver's table of its peer's channels is the peer's own table, name by name.
  ghost predicate SameTables(e: Env, y: Endpoint, x: Endpoint) {
    && |x.rx.notLocal.localToGlobal| == |y.local.localToGlobal|
    && (forall c: nat :: c < |y.local.localToGlobal| ==> Named(e, y, x, c))
    && (forall name :: name in e.theirs.names ==> exists c :: NamedAt(e, y, x, c, name))
    && x.rx.notLocal.ack == y.local.ack != NULL_ID
    && x.rx.notLocal.management == y.local.management != NULL_ID
  }

  lemma NamedEntry(e: Env, y: Endpoint, x: Endpoint, c: nat)
    requires PeerOk(e, y) && Good(e, y, x) && x.state.Transfer? && c < |x.rx.notLocal.localToGlobal|
    ensures c < |y.tx.listing| && NamedAt(e, y, x, c, y.tx.listing[c].name)
  {
    hide PeerOk, Good;
    NameOfLane(e, y, x, c);
    Complete(e, y, x);
    ListingFits(e, y);
    RenamedDistinct(y.tx.listing, e.mine);
    AppendedShape(Renamed(y.tx.listing, e.mine));
    hide DistinctEntries, Appended, ListingOk, Known, Renamed, StandsAt;
    assert x.rx.notLocal.globalToLocal[x.rx.notLocal.localToGlobal[c]] == c;
  }

  lemma ListingWhole(e: Env, y: Endpoint)
    requires PeerOk(e, y) && Lookup(y.tx.submitted, MANAGEMENT_LANE) != []
    ensures IsListing(e.theirs, y.tx.listing)
  {
    hide TxInv, BufferOk, IsListing, ListingOk, AnnouncedAll, Appended;
  }

  lemma WholeListing(e: Env, y: Endpoint, x: Endpoint)
    requires PeerOk(e, y) && Good(e, y, x) && x.state.Transfer?
    ensures IsListing(e.theirs, y.tx.listing)
  {
    hide PeerOk, Good, IsListing;
    Complete(e, y, x);
    ListingWhole(e, y);
  }

  lemma SystemEntries(e: Env, y: Endpoint, x: Endpoint)
    requires PeerOk(e, y) && Good(e, y, x) && x.state.Transfer?
    ensures x.rx.notLocal.ack == y.local.ack != NULL_ID
    ensures x.rx.notLocal.management == y.local.management != NULL_ID
  {
    hide PeerOk, Good, IsListing;
    WholeListing(e, y, x);
    Complete(e, y, x);
    ListingFits(e, y);
    RenamedDistinct(y.tx.listing, e.mine);
    hide DistinctEntries, Appended, ListingOk, Known, StandsAt, Provider.WellFormed;
    AppendedShape(Renamed(y.tx.listing, e.mine));
    AppendedShape(y.tx.listing);
    HasSystemNames(e.theirs);
    SameStanding(e, y.tx.listing, ACK_NAME, y.local.ack, x.rx.notLocal.ack);
    SameStanding(e, y.tx.listing, MANAGEMENT_NAME, y.local.management, x.rx.notLocal.management);
  }

  lemma HasSystemNames(prov: Provider)
    requires prov.WellFormed()
    ensures ACK_NAME in prov.names && MANAGEMENT_NAME in prov.names
  {
  }

  /// A name stands at one place of a listing, whichever provider's ids are beside it.
  lemma SameStanding(e: Env, listing: seq<Entry>, name: Bytes, id: nat, id': nat)
    requires IsListing(e.theirs, listing) && DistinctEntries(listing) && name in e.theirs.names && |listing| < NULL_ID
    requires StandsAt(listing, name, id) && StandsAt(Renamed(listing, e.mine), name, id')
    ensures id == id' != NULL_ID
  {
    hide IsListing;
    Stands(e.theirs, listing, name);
  }

  lemma Stands(prov: Provider, listing: seq<Entry>, name: Bytes)
    requires IsListing(prov, listing) && name in prov.names
    ensures exists i :: 0 <= i < |listing| && listing[i].name == name
  {
  }

  lemma EachNamed(e: Env, y: Endpoint, x: Endpoint, name: Bytes)
    requires PeerOk(e, y) && Good(e, y, x) && x.state.Transfer? && name in e.theirs.names
    ensures exists c :: NamedAt(e, y, x, c, name)
  {
    hide PeerOk, Good, NamedAt;
    WholeListing(e, y, x);
    Stands(e.theirs, y.tx.listing, name);
    hide IsListing;
    var c: nat :| c < |y.tx.listing| && y.tx.listing[c].name == name;
    Complete(e, y, x);
    hide Known, Appended;
    NamedEntry(e, y, x, c);
  }

  lemma TablesAt(e: Env, y: Endpoint, x: Endpoint)
    requires PeerOk(e, y) && Good(e, y, x) && x.state.Transfer?
    ensures SameTables(e, y, x)
  {
    hide PeerOk, Good, NamedAt, Known, Appended;
    Complete(e, y, x);
    SystemEntries(e, y, x);
    forall c: nat | c < |y.local.localToGlobal|
      ensures Named(e, y, x, c)
    {
      NamedEntry(e, y, x, c);
    }
    forall name | name in e.theirs.names
      ensures exists c :: NamedAt(e, y, x, c, name)
    {
      EachNamed(e, y, x, name);
    }
  }

  lemma InTransfer(e: Env, y: Endpoint, x: Endpoint)
    requires Facing(e, y, x) && x.state.Transfer?
    ensures PeerOk(e, y) && Good(e, y, x)
  {
    hide PeerOk, RecvInv, UpInv;
  }

  /// Registration agreement: an endpoint in transfer, however it got there, has the peer's complete
  /// table of channels, with the same names at the same ids, and the same two system channels.
  lemma RegistrationAgreement(c: Config, run: seq<Sys>, events: seq<Event>, i: nat, side: Side)
    requires c.Ok() && IsRun(c, run, events) && i < |run| && Unwrapped(run[i])
    requires run[i].At(side).x.state.Transfer?
    ensures SameTables(c.EnvOf(side), run[i].At(side.Other()).x, run[i].At(side).x)
  {
    hide IsRun, Facing, Unwrapped, Sound, PeerOk, Good, SameTables;
    Reached(c, run, events, i, side);
    InTransfer(c.EnvOf(side), run[i].At(side.Other()).x, run[i].At(side).x);
    TablesAt(c.EnvOf(side), run[i].At(side.Other()).x, run[i].At(side).x);
  }

  // ---- The handshake ----

  lemma FinalAccepted(e: Env, y: Endpoint, x: Endpoint)
    requires PeerOk(e, y) && Good(e, y, x) && x.state.Transfer? && y.tx.finalKey.Some?
    ensures y.tx.finalKey.value in AccKeys(x.rx)
  {
    hide PeerOk, Good, AccKeys;
    var n := |y.tx.listing|;
    Complete(e, y, x);
    hide Known, Appended;
    CleanRegistration(e, y, MANAGEMENT_LANE);
    ManagementPushed(e, y, x);
    assert n in Lookup(x.rx.pushed, MANAGEMENT_LANE);
    assert OrderAccepted(y, x, MANAGEMENT_LANE, n);
    var p :| p in y.tx.sent && p.lane == MANAGEMENT_LANE && p.order == Some(n)
             && p.key.Some? && p.key.value in AccKeys(x.rx);
    FinalPacket(e, y);
    var q :| q in y.tx.sent && q.lane == MANAGEMENT_LANE && q.order == Some(n) && q.key == y.tx.finalKey;
    PeerParts(e, y, p);
    SameTurnSamePacket(y.tx.sent, p, q);
  }

  lemma ManagementPushed(e: Env, y: Endpoint, x: Endpoint)
    requires Good(e, y, x) && Clean(y.tx, MANAGEMENT_LANE)
    ensures PushedOk(y, x, MANAGEMENT_LANE)
  {
    hide UpInv, AcceptOk, TableOk, QuietOk, BuffersOk, RoutedOk, JoiningOk, ReleasedOk, HandshakeOk, PushedOk, Clean,
         InFlight;
  }

  lemma FinalPacket(e: Env, y: Endpoint)
    requires PeerOk(e, y) && y.tx.finalKey.Some?
    ensures FinalSent(y.tx.sent, |y.tx.listing|, y.tx.finalKey)
  {
    hide TxInv, BufferOk, AnnouncedOk, FinalSent, StagesOk, IsListing, AckLaneReady;
  }

  /// The end of an endpoint's registration has reached its peer.
  ghost predicate EndArrived(x: Endpoint, y: Endpoint) {
    x.tx.finalKey.Some? && x.tx.finalKey.value in AccKeys(y.rx)
  }

  lemma OwnFinal(e: Env, y: Endpoint, x: Endpoint)
    requires Good(e, y, x) && y.rx.noted <= AccKeys(y.rx)
    ensures x.tx.finalKey.Some? && (x.state.Transfer? ==> EndArrived(x, y) || y.state.Transfer?)
  {
    hide SelfInv, AcceptOk, TableOk, LanesOk, QuietOk, BuffersOk, RoutedOk, JoiningOk, ReleasedOk, AccKeys;
  }

  lemma PeerFinal(e: Env, y: Endpoint, x: Endpoint)
    requires PeerOk(e, y) && Good(e, y, x) && x.state.Transfer?
    ensures y.tx.finalKey.Some? ==> EndArrived(y, x)
  {
    hide PeerOk, Good, AccKeys;
    if y.tx.finalKey.Some? {
      FinalAccepted(e, y, x);
    }
  }

  /// The handshake: when an endpoint is in transfer, by acknowledgement or by speculation, each side
  /// has received the end of the other's registration. So the speculation of a receiver that its
  /// own last packet has arrived is always right.
  lemma HandshakeSafe(c: Config, run: seq<Sys>, events: seq<Event>, i: nat, side: Side)
    requires c.Ok() && IsRun(c, run, events) && i < |run| && Unwrapped(run[i])
    requires run[i].At(side).x.state.Transfer? && run[i].At(side.Other()).phase.Up?
    ensures EndArrived(run[i].At(side).x, run[i].At(side.Other()).x)
    ensures EndArrived(run[i].At(side.Other()).x, run[i].At(side).x)
  {
    hide IsRun, Facing, Unwrapped, Sound, PeerOk, Good, SelfInv, RecvInv, UpInv, EndArrived, NodeOk, AcceptOk, AccKeys;
    var x, y := run[i].At(side).x, run[i].At(side.Other()).x;
    Reached(c, run, events, i, side);
    Reached(c, run, events, i, side.Other());
    InTransfer(c.EnvOf(side), y, x);
    UpIsGood(c, run[i], side.Other());
    SidePair(c, run[i], side);
    RecvKeys(c.At(side), y, x);
    RecvKeys(c.At(side.Other()), x, y);
    OwnFinal(c.EnvOf(side), y, x);
    OwnFinal(c.EnvOf(side.Other()), x, y);
    PeerFinal(c.EnvOf(side), y, x);
    if y.state.Transfer? {
      InTransfer(c.EnvOf(side.Other()), x, y);
      PeerFinal(c.EnvOf(side.Other()), x, y);
    }
  }

  lemma UpIsGood(c: Config, s: Sys, side: Side)
    requires Sound(c, s) && s.At(side).phase.Up?
    ensures Good(c.EnvOf(side), s.At(side.Other()).x, s.At(side).x)
  {
    hide SelfInv, RecvInv, UpInv, Untouched;
  }

  // ---- Keys ----

  /// The key was given to one packet only, and the peer has accepted that packet.
  ghost predicate AcceptedPacket(y: Endpoint, x: Endpoint, k: Key) {
    exists p :: p in x.tx.sent && p.key == Some(k) && Accepted(p.lane.stage, k) in y.rx.accepted
                && forall q :: q in x.tx.sent && q.key == Some(k) ==> q == p
  }

  lemma AcceptedOne(e: Env, y: Endpoint, x: Endpoint, k: Key)
    requires KeysDistinct(x.tx.sent) && AcceptOk(x, y) && k in AccKeys(y.rx)
    ensures AcceptedPacket(y, x, k)
  {
    var a :| a in y.rx.accepted && a.key == k;
    assert FromPeer(x.tx.sent, a);
    var p :| p in x.tx.sent && p.key == Some(a.key) && p.lane.stage == a.stage;
    assert a == Accepted(p.lane.stage, k);
    forall q | q in x.tx.sent && q.key == Some(k)
      ensures q == p
    {
      SameKeySamePacket(x.tx.sent, p, q);
    }
  }

  lemma SelfKeys(prov: Provider, x: Endpoint)
    requires SelfInv(prov, x)
    ensures KeysDistinct(x.tx.sent)
  {
    hide BufferOk, AnnouncedOk, AnnouncedAll, StagesOk, PacketOk, SlotsOk, KeysDistinct, OrdersDistinct, CountersOk;
  }

  lemma RecvKeys(prov: Provider, y: Endpoint, x: Endpoint)
    requires RecvInv(prov, y, x)
    ensures AcceptOk(y, x) && ReleasedOk(y, x) && x.rx.noted <= AccKeys(x.rx)
  {
    hide AcceptOk, TableOk, LanesOk, QuietOk, BuffersOk, RoutedOk, JoiningOk, ReleasedOk, HandshakeOk;
    NotedAccepted(y, x);
  }

  lemma NotedAccepted(y: Endpoint, x: Endpoint)
    requires AcceptOk(y, x)
    ensures x.rx.noted <= AccKeys(x.rx)
  {
  }

  lemma SidePair(c: Config, s: Sys, side: Side)
    requires Sound(c, s)
    ensures SelfInv(c.At(side), s.At(side).x)
    ensures RecvInv(c.At(side), s.At(side.Other()).x, s.At(side).x)
    ensures RecvInv(c.At(side.Other()), s.At(side).x, s.At(side.Other()).x)
  {
    hide SelfInv, RecvInv, UpInv, Untouched;
  }

  /// Acknowledgement soundness: a packet leaves the resender through an acknowledgement only if the
  /// peer has accepted that very packet. Keys of cleared or reused slots release nothing.
  lemma AcknowledgementSoundness(c: Config, run: seq<Sys>, events: seq<Event>, i: nat, side: Side, k: Key)
    requires c.Ok() && IsRun(c, run, events) && i < |run| && Unwrapped(run[i])
    requires k in run[i].At(side).x.tx.released
    ensures AcceptedPacket(run[i].At(side.Other()).x, run[i].At(side).x, k)
  {
    hide IsRun, Facing, Unwrapped, Sound, SelfInv, RecvInv, AcceptedPacket, AcceptOk, KeysDistinct, AccKeys;
    var x, y := run[i].At(side).x, run[i].At(side.Other()).x;
    Reached(c, run, events, i, side);
    SidePair(c, run[i], side);
    SelfKeys(c.At(side), x);
    RecvKeys(c.At(side), y, x);
    RecvKeys(c.At(side.Other()), x, y);
    AcceptedOne(c.EnvOf(side), y, x, k);
  }

  /// At-most-once: over the whole life of a connection, through the clearing of the duplicate set
  /// between the stages, no key gets past the duplicate check twice.
  lemma AtMostOnce(c: Config, run: seq<Sys>, events: seq<Event>, i: nat, side: Side, m: nat, n: nat)
    requires c.Ok() && IsRun(c, run, events) && i < |run| && Unwrapped(run[i])
    requires m < n < |run[i].At(side).x.rx.accepted|
    ensures run[i].At(side).x.rx.accepted[m].key != run[i].At(side).x.rx.accepted[n].key
  {
    hide IsRun, Facing, Unwrapped, Sound, SelfInv, RecvInv, ReleasedOk, FromPeer;
    Reached(c, run, events, i, side);
    SidePair(c, run[i], side);
    RecvKeys(c.At(side), run[i].At(side.Other()).x, run[i].At(side).x);
  }

  lemma SelfWire(prov: Provider, x: Endpoint, d: Bytes) returns (p: Packet)
    requires SelfInv(prov, x) && d in x.tx.wire
    ensures p in x.tx.sent && Frame(p) == d && PacketFits(p) && KeysDistinct(x.tx.sent)
  {
    hide BufferOk, AnnouncedOk, AnnouncedAll, StagesOk, SlotsOk, KeysDistinct, OrdersDistinct, CountersOk, Frame;
    assert OnWire(x.tx.sent, d);
    p :| p in x.tx.sent && Frame(p) == d;
    assert PacketOk(prov, x.local, x.tx, x.rx.noted, p);
  }

  /// Every datagram on the wire is one packet's frame, fits the limit, and is the only one with its
  /// key: packets with equal keys are the same packet, byte for byte.
  lemma WireSound(c: Config, run: seq<Sys>, events: seq<Event>, i: nat, side: Side, d: Bytes)
    requires c.Ok() && IsRun(c, run, events) && i < |run| && Unwrapped(run[i]) && d in run[i].At(side).x.tx.wire
    ensures |d| <= MAX_PACKET
    ensures exists p :: p in run[i].At(side).x.tx.sent && Frame(p) == d && FrameReads(p, d)
                        && (p.key.Some? ==>
                              forall q :: q in run[i].At(side).x.tx.sent && q.key == p.key ==> Frame(q) == d)
  {
    hide IsRun, Facing, Unwrapped, Sound, SelfInv, RecvInv, Frame, FrameReads, PacketFits, Parse;
    var x := run[i].At(side).x;
    Reached(c, run, events, i, side);
    SidePair(c, run[i], side);
    var p := SelfWire(c.At(side), x, d);
    FrameSize(p);
    FrameRoundTrip(p);
    if p.key.Some? {
      forall q | q in x.tx.sent && q.key == p.key
        ensures Frame(q) == d
      {
        SameKeySamePacket(x.tx.sent, p, q);
      }
    }
  }

  // ---- Orders ----

  /// A packet that would pass the duplicate check has a new order: at or after the front, in a slot
  /// that is still empty, and refused only for lying too far ahead.
  ghost predicate NewTurn(x: Endpoint, lane: Lane, p: Packet) {
    && p.order.Some? && p.order.value !in Lookup(x.rx.pushed, lane)
    && (WindowOf(x, lane).Some? ==>
          var w, o := WindowOf(x, lane).value, p.order.value;
          && w.start == |Lookup(x.rx.handled, lane)| <= o && o !in w.pending
          && (w.Push(o, p.payload).None? <==> o >= w.start + w.capacity))
  }

  lemma NewTurnAt(y: Endpoint, x: Endpoint, lane: Lane, p: Packet)
    requires LaneOk(y, x, lane, true) && Clean(y.tx, lane) && OrdersDistinct(y.tx.sent)
    requires p in y.tx.sent && p.lane == lane && p.order.Some? && p.key.Some? && p.key.value !in AccKeys(x.rx)
    ensures NewTurn(x, lane, p) && Distinct(Lookup(x.rx.pushed, lane))
  {
    hide AccKeys;
    OrderIsNew(y, x, lane, p);
  }

  lemma TurnsAt(e: Env, y: Endpoint, x: Endpoint, id: nat, p: Packet)
    requires PeerOk(e, y) && Good(e, y, x) && x.state.Transfer? && Behind(e.mine, x, id).Some?
    requires Behind(e.mine, x, id).value.IsOrdered() && Behind(e.mine, x, id).value.IsReliable()
    requires Short(Lookup(y.tx.submitted, Lane(Tra, id)))
    requires p in y.tx.sent && p.lane == Lane(Tra, id) && !(p.key.Some? && p.key.value in x.rx.dup)
    ensures NewTurn(x, Lane(Tra, id), p) && Distinct(Lookup(x.rx.pushed, Lane(Tra, id)))
  {
    hide PeerOk, Good, RecvInv, BareOk, KeysDistinct, OrdersDistinct, AcceptOk, AccKeys, PacketOk, LaneOk, NewTurn,
         Clean;
    ShortIsClean(e, y, Lane(Tra, id));
    OrderedLaneOk(e, y, x, id);
    PeerParts(e, y, p);
    GoodParts(e, y, x);
    PacketKind(e, y, p);
    SameEntry(e, y, x, id);
    ListingFits(e, y);
    PeerMatches(e, y, y.tx.listing[id].name);
    DupIsEnough(y, x, p);
    NewTurnAt(y, x, Lane(Tra, id), p);
  }

  lemma PeerMatches(e: Env, y: Endpoint, name: Bytes)
    requires PeerOk(e, y) && name in e.mine.names && name in e.theirs.names
    ensures e.mine.names[name] < |e.mine.channels| && e.theirs.names[name] < |e.theirs.channels|
    ensures e.mine.channels[e.mine.names[name]].IsOrdered() == e.theirs.channels[e.theirs.names[name]].IsOrdered()
    ensures e.mine.channels[e.mine.names[name]].IsReliable() == e.theirs.channels[e.theirs.names[name]].IsReliable()
  {
    hide SelfInv;
  }

  /// Each order reaches the orderer of a reliable, ordered channel at most once. So a push never
  /// overwrites a waiting packet, and an order is refused only for lying too far ahead, never for
  /// having gone by.
  lemma OrdersPushedOnce(c: Config, run: seq<Sys>, events: seq<Event>, i: nat, side: Side, id: nat, p: Packet)
    requires c.Ok() && IsRun(c, run, events) && i < |run| && Unwrapped(run[i])
    requires run[i].At(side).x.state.Transfer? && Behind(c.At(side), run[i].At(side).x, id).Some?
    requires var ch := Behind(c.At(side), run[i].At(side).x, id).value; ch.IsOrdered() && ch.IsReliable()
    requires Short(Lookup(run[i].At(side.Other()).x.tx.submitted, Lane(Tra, id)))
    requires p in run[i].At(side.Other()).x.tx.sent && p.lane == Lane(Tra, id)
    requires !(p.key.Some? && p.key.value in run[i].At(side).x.rx.dup)
    ensures NewTurn(run[i].At(side).x, Lane(Tra, id), p)
    ensures Distinct(Lookup(run[i].At(side).x.rx.pushed, Lane(Tra, id)))
  {
    hide IsRun, Facing, Unwrapped, Sound, PeerOk, Good, NewTurn;
    Reached(c, run, events, i, side);
    InTransfer(c.EnvOf(side), run[i].At(side.Other()).x, run[i].At(side).x);
    TurnsAt(c.EnvOf(side), run[i].At(side.Other()).x, run[i].At(side).x, id, p);
  }

  lemma AnnouncementTurn(e: Env, y: Endpoint, x: Endpoint, p: Packet)
    requires PeerOk(e, y) && RecvInv(e.mine, y, x) && x.state.Registration?
    requires p in y.tx.sent && p.lane == MANAGEMENT_LANE && !(p.key.Some? && p.key.value in x.rx.dup)
    ensures NewTurn(x, MANAGEMENT_LANE, p) && Distinct(Lookup(x.rx.pushed, MANAGEMENT_LANE))
  {
    hide PeerOk, RecvInv, BareOk, KeysDistinct, OrdersDistinct, AcceptOk, AccKeys, PacketOk, LaneOk, NewTurn, Clean;
    CleanRegistration(e, y, MANAGEMENT_LANE);
    PeerParts(e, y, p);
    RecvKeys(e.mine, y, x);
    ManagementLane(e, y, x);
    PacketKind(e, y, p);
    DupIsEnough(y, x, p);
    NewTurnAt(y, x, MANAGEMENT_LANE, p);
  }

  lemma ManagementLane(e: Env, y: Endpoint, x: Endpoint)
    requires RecvInv(e.mine, y, x)
    ensures LaneOk(y, x, MANAGEMENT_LANE, true)
  {
    hide AcceptOk, TableOk, QuietOk, BuffersOk, RoutedOk, JoiningOk, ReleasedOk, HandshakeOk, LaneOk;
  }

  /// The same holds of the announcements of the registration stage, without any condition.
  lemma AnnouncementsPushedOnce(c: Config, run: seq<Sys>, events: seq<Event>, i: nat, side: Side, p: Packet)
    requires c.Ok() && IsRun(c, run, events) && i < |run| && Unwrapped(run[i])
    requires run[i].At(side).x.state.Registration?
    requires p in run[i].At(side.Other()).x.tx.sent && p.lane == MANAGEMENT_LANE
    requires !(p.key.Some? && p.key.value in run[i].At(side).x.rx.dup)
    ensures NewTurn(run[i].At(side).x, MANAGEMENT_LANE, p)
    ensures Distinct(Lookup(run[i].At(side).x.rx.pushed, MANAGEMENT_LANE))
  {
    hide IsRun, Unwrapped, Sound, PeerOk, RecvInv, UpInv, Untouched, NewTurn;
    Reached(c, run, events, i, side);
    AnnouncementTurn(c.EnvOf(side), run[i].At(side.Other()).x, run[i].At(side).x, p);
  }
}
