/** Every step of receiving a datagram keeps the receiver's invariants. */
module Receiving {
  import opened Base
  import opened SlotKeys
  import opened Framing
  import opened Channels
  import opened Endpoints
  import opened Sending
  import opened Acknowledging
  import opened Invariants

  /// The two providers: of the receiver and of its peer.
  datatype Env = Env(mine: Provider, theirs: Provider)

  ghost predicate EnvOk(e: Env) {
    e.mine.WellFormed() && e.theirs.WellFormed() && Matching(e.mine, e.theirs)
  }

  /// The peer's side of things, fixed while x receives.
  ghost predicate PeerOk(e: Env, y: Endpoint) {
    EnvOk(e) && SelfInv(e.theirs, y)
  }

  ghost predicate Good(e: Env, y: Endpoint, x: Endpoint) {
    UpInv(e.mine, x) && RecvInv(e.mine, y, x)
  }

  lemma ExtendsTrans(a: Endpoint, b: Endpoint, c: Endpoint)
    requires Extends(a, b) && Extends(b, c)
    ensures Extends(a, c)
  {
    GrowsTrans(a.tx, b.tx, c.tx);
  }

  // ---- Lanes as both sides see them ----

  /// A lane of the receiver, with the channel it leads to.
  ghost predicate LaneReady(prov: Provider, x: Endpoint, lane: Lane, g: nat, ch: Channel) {
    && lane.stage == StageOf(x.state)
    && x.rx.notLocal.GlobalId(lane.stage, lane.chan) == Some(g)
    && ChannelOf(lane.stage, lane.chan, g, prov) == Some(ch)
  }

  /// In the transfer stage the table is complete, on both sides of the connection.
  lemma Agreement(e: Env, y: Endpoint, x: Endpoint)
    requires PeerOk(e, y) && Good(e, y, x)
    requires |Lookup(x.rx.handled, MANAGEMENT_LANE)| == |y.tx.listing| + 1
    ensures Known(y.tx.listing, e.mine) && x.rx.notLocal == Appended(Renamed(y.tx.listing, e.mine))
    ensures y.local == Appended(y.tx.listing)
    ensures |Lookup(y.tx.submitted, MANAGEMENT_LANE)| == |y.tx.listing| + 1
  {
    hide PeerOk, Good;
    CleanRegistration(e, y, MANAGEMENT_LANE);
    AgreementTable(e, y, x);
    AgreementPeer(e, y);
  }

  lemma AgreementTable(e: Env, y: Endpoint, x: Endpoint)
    requires Good(e, y, x) && Clean(y.tx, MANAGEMENT_LANE)
    requires |Lookup(x.rx.handled, MANAGEMENT_LANE)| == |y.tx.listing| + 1
    ensures Known(y.tx.listing, e.mine) && x.rx.notLocal == Appended(Renamed(y.tx.listing, e.mine))
    ensures |y.tx.listing| + 1 <= |Lookup(y.tx.submitted, MANAGEMENT_LANE)|
  {
    hide UpInv, AcceptOk, QuietOk, BuffersOk, RoutedOk, JoiningOk, ReleasedOk, HandshakeOk, PushedOk, InFlight, Clean;
    assert y.tx.listing[..|y.tx.listing|] == y.tx.listing;
  }

  lemma AgreementPeer(e: Env, y: Endpoint)
    requires PeerOk(e, y) && |y.tx.listing| + 1 <= |Lookup(y.tx.submitted, MANAGEMENT_LANE)|
    ensures y.local == Appended(y.tx.listing) && |Lookup(y.tx.submitted, MANAGEMENT_LANE)| == |y.tx.listing| + 1
  {
    hide TxInv, BufferOk, AnnouncedAll, StagesOk, ListingOk, IsListing, Appended;
    assert y.tx.listing[..|y.tx.listing|] == y.tx.listing;
  }

  lemma CleanRegistration(e: Env, y: Endpoint, lane: Lane)
    requires PeerOk(e, y) && lane.stage.Reg?
    ensures Clean(y.tx, lane)
  {
    forall p | p in y.tx.sent && p.lane == lane
      ensures p.seg.None?
    {
      assert BareOk(e.theirs, y.local, y.tx, y.rx.noted, p);
    }
  }

  lemma SystemIds(names: seq<Entry>, other: seq<Entry>)
    requires DistinctEntries(names) && DistinctEntries(other) && |names| == |other| < NULL_ID
    requires forall i :: 0 <= i < |names| ==> names[i].name == other[i].name
    ensures Appended(names).ack == Appended(other).ack
    ensures Appended(names).ack != NULL_ID ==>
              Appended(names).ack < |names| && names[Appended(names).ack].name == ACK_NAME
  {
    AppendedShape(names);
    AppendedShape(other);
  }

  /// In the transfer stage a lane is the same entry of the peer's listing on both sides.
  lemma SameEntry(e: Env, y: Endpoint, x: Endpoint, c: nat)
    requires PeerOk(e, y) && Good(e, y, x) && x.state.Transfer? && c < |x.rx.notLocal.localToGlobal|
    ensures c < |y.tx.listing| && |x.rx.notLocal.localToGlobal| == |y.tx.listing|
    ensures y.tx.listing[c].name in e.mine.names && y.tx.listing[c].name in e.theirs.names
    ensures Behind(e.mine, x, c) == Some(e.mine.channels[e.mine.names[y.tx.listing[c].name]])
    ensures LaneChannel(e.theirs, y.local, Lane(Tra, c))
         == Some(e.theirs.channels[e.theirs.names[y.tx.listing[c].name]])
    ensures x.rx.notLocal.ack == y.local.ack
    ensures y.local.ack == c ==> y.tx.listing[c].name == ACK_NAME
  {
    hide TxInv, BufferOk, AnnouncedAll, AcceptOk, LanesOk, QuietOk, BuffersOk, RoutedOk, JoiningOk, ReleasedOk,
         HandshakeOk, Matching;
    Agreement(e, y, x);
    EntryOf(e, y.tx.listing, c);
  }

  lemma EntryOf(e: Env, listing: seq<Entry>, c: nat)
    requires e.mine.WellFormed() && e.theirs.WellFormed() && ListingOk(e.theirs, listing) && Known(listing, e.mine)
    requires c < |listing|
    ensures Appended(Renamed(listing, e.mine)).localToGlobal[c] == e.mine.names[listing[c].name] < |e.mine.channels|
    ensures Appended(listing).localToGlobal[c] == e.theirs.names[listing[c].name] < |e.theirs.channels|
    ensures Appended(Renamed(listing, e.mine)).ack == Appended(listing).ack
    ensures Appended(listing).ack == c ==> listing[c].name == ACK_NAME
  {
    assert listing[c].name in e.mine.names;
    RenamedDistinct(listing, e.mine);
    SystemIds(listing, Renamed(listing, e.mine));
  }

  /// The two sides use the same framing on a lane, and the same lane for acknowledgements.
  lemma SameKind(e: Env, y: Endpoint, x: Endpoint, lane: Lane, g: nat, ch: Channel)
    requires PeerOk(e, y) && Good(e, y, x) && LaneReady(e.mine, x, lane, g, ch)
    ensures LaneChannel(e.theirs, y.local, lane).Some?
    ensures LaneChannel(e.theirs, y.local, lane).value.IsOrdered() == ch.IsOrdered()
    ensures LaneChannel(e.theirs, y.local, lane).value.IsReliable() == ch.IsReliable()
    ensures lane.stage.Tra? ==> Behind(e.mine, x, lane.chan) == Some(ch)
    ensures lane.stage.Tra? && x.rx.notLocal.ack != NULL_ID && x.rx.notLocal.ack == lane.chan ==>
              IsAckLane(y.local, lane) && ch == ACK_CHANNEL
  {
    hide TxInv, BufferOk, AnnouncedOk, AnnouncedAll, AcceptOk, TableOk, LanesOk, QuietOk, BuffersOk, RoutedOk,
         JoiningOk, ReleasedOk, HandshakeOk;
    if lane.stage.Tra? {
      SameEntry(e, y, x, lane.chan);
    }
  }

  // ---- Frames: what each part of the invariant reads ----

  /// What the lane invariants read.
  ghost predicate SameReceipts(x: Endpoint, x': Endpoint) {
    && x'.rx.notLocal == x.rx.notLocal && x'.rx.orderers == x.rx.orderers && x'.rx.handled == x.rx.handled
    && x'.rx.pushed == x.rx.pushed && x'.rx.joiner == x.rx.joiner && x'.rx.buffers == x.rx.buffers
    && IsPrefix(x.rx.accepted, x'.rx.accepted) && x.rx.noted <= x'.rx.noted
  }

  lemma SameLane(y: Endpoint, x: Endpoint, x': Endpoint, lane: Lane, reliable: bool)
    requires x'.rx.orderers == x.rx.orderers && IsPrefix(x.rx.accepted, x'.rx.accepted)
    requires Lookup(x'.rx.handled, lane) == Lookup(x.rx.handled, lane)
    requires Lookup(x'.rx.pushed, lane) == Lookup(x.rx.pushed, lane)
    requires LaneOk(y, x, lane, reliable)
    ensures LaneOk(y, x', lane, reliable)
  {
    AccKeysGrow(x.rx, x'.rx);
    if Clean(y.tx, lane) && reliable {
      forall o | o in Lookup(x'.rx.pushed, lane)
        ensures OrderAccepted(y, x', lane, o)
      {
        assert OrderAccepted(y, x, lane, o);
      }
    }
  }

  lemma SameLanes(e: Env, y: Endpoint, x: Endpoint, x': Endpoint)
    requires SameReceipts(x, x') && LanesOk(e.mine, y, x)
    ensures LanesOk(e.mine, y, x')
  {
    hide LaneOk;
    SameLane(y, x, x', MANAGEMENT_LANE, true);
    forall c | Behind(e.mine, x', c).Some? && Behind(e.mine, x', c).value.IsOrdered()
      ensures LaneOk(y, x', Lane(Tra, c), Behind(e.mine, x', c).value.IsReliable())
    {
      assert Behind(e.mine, x', c) == Behind(e.mine, x, c);
      SameLane(y, x, x', Lane(Tra, c), Behind(e.mine, x, c).value.IsReliable());
    }
  }

  lemma SameRouted(e: Env, y: Endpoint, x: Endpoint, x': Endpoint)
    requires SameReceipts(x, x') && RoutedOk(e.mine, y, x)
    ensures RoutedOk(e.mine, y, x')
  {
    hide LaneRouted;
    forall c | Behind(e.mine, x', c).Some?
      ensures RoutedOn(y, x', Lane(Tra, c), Behind(e.mine, x', c).value)
    {
      assert Behind(e.mine, x', c) == Behind(e.mine, x, c);
    }
  }

  lemma SameBuffers(x: Endpoint, x': Endpoint)
    requires SameReceipts(x, x') && BuffersOk(x)
    ensures BuffersOk(x')
  {
    forall g | g in x'.rx.buffers && x'.rx.buffers[g] != []
      ensures HasLane(x', g)
    {
      assert HasLane(x, g);
    }
  }

  lemma SameTable(e: Env, y: Endpoint, x: Endpoint, x': Endpoint)
    requires TableOk(e.mine, y, x) && x'.rx.notLocal == x.rx.notLocal
    requires Lookup(x'.rx.handled, MANAGEMENT_LANE) == Lookup(x.rx.handled, MANAGEMENT_LANE)
    requires x'.state.Transfer? || x'.state.receivedLast ==> x.state.Transfer? || x.state.receivedLast
    ensures TableOk(e.mine, y, x')
  {
  }

  /// All parts that depend on nothing but receipts and the stage.
  lemma SameAll(e: Env, y: Endpoint, x: Endpoint, x': Endpoint)
    requires SameReceipts(x, x') && RecvInv(e.mine, y, x)
    requires x'.state.Transfer? || x'.state.receivedLast ==> x.state.Transfer? || x.state.receivedLast
    requires x'.state.Registration? ==> x.state.Registration?
    ensures LanesOk(e.mine, y, x') && RoutedOk(e.mine, y, x') && BuffersOk(x') && JoiningOk(y, x')
    ensures TableOk(e.mine, y, x') && QuietOk(x')
  {
    hide LanesOk, RoutedOk, BuffersOk, TableOk, AcceptOk;
    SameLanes(e, y, x, x');
    SameRouted(e, y, x, x');
    SameBuffers(x, x');
    SameTable(e, y, x, x');
  }

  // ---- From registration to transfer ----

  /// Nothing is sent or accepted.
  ghost predicate SilentStep(x: Endpoint, x': Endpoint) {
    && SameHistory(x.tx, x'.tx) && x'.tx.listing == x.tx.listing && x'.tx.finalKey == x.tx.finalKey
    && x'.tx.resender.capacity == x.tx.resender.capacity
    && IsPrefix(x.tx.released, x'.tx.released)
    && x'.local == x.local && x'.rx.accepted == x.rx.accepted && x'.rx.noted == x.rx.noted
    && x'.rx.buffers == x.rx.buffers
    && (x.state.Transfer? ==> x'.state.Transfer?)
  }

  lemma SilentExtends(x: Endpoint, x': Endpoint)
    requires SilentStep(x, x')
    ensures Extends(x, x') && x'.rx.noted == x.rx.noted
  {
  }

  lemma SilentStages(x: Endpoint, x': Endpoint)
    requires SilentStep(x, x') && StagesOk(x) && x.tx.finalKey.Some?
    ensures StagesOk(x')
  {
  }

  /// A step in which nothing is sent or accepted keeps an endpoint sound if it keeps its sender sound.
  lemma SilentSelf(e: Env, x: Endpoint, x': Endpoint)
    requires UpInv(e.mine, x) && SilentStep(x, x')
    requires TxInv(e.mine, x'.local, x'.tx, x'.rx.noted) && BufferOk(x'.ack, x'.rx.noted)
    ensures UpInv(e.mine, x') && Extends(x, x')
  {
    hide TxInv, BufferOk, AnnouncedAll, AnnouncedOk, StagesOk, Extends, AccKeys;
    SilentExtends(x, x');
    SilentStages(x, x');
    AnnouncedKept(e.mine, x, x');
  }

  lemma UpTx(e: Env, x: Endpoint)
    requires UpInv(e.mine, x)
    ensures TxInv(e.mine, x.local, x.tx, x.rx.noted) && BufferOk(x.ack, x.rx.noted)
  {
    hide TxInv, BufferOk, AnnouncedAll, AnnouncedOk, StagesOk;
  }

  lemma EnterTransferSelf(e: Env, x: Endpoint)
    requires UpInv(e.mine, x) && x.state.Registration?
    ensures UpInv(e.mine, EnterTransfer(x)) && Extends(x, EnterTransfer(x))
  {
    hide TxInv, BufferOk, UpInv, Extends, AccKeys;
    var x' := EnterTransfer(x);
    UpTx(e, x);
    SilentExtends(x, x');
    ClearGood(e.mine, x.local, x.tx, x.rx.noted);
    NothingBuffered(x.rx.noted);
    SilentSelf(e, x, x');
  }

  lemma EnterTransferAccept(y: Endpoint, x: Endpoint)
    requires AcceptOk(y, x) && x.state.Registration?
    ensures AcceptOk(y, EnterTransfer(x))
  {
    assert AccIn(EnterTransfer(x).rx, Tra) == {};
  }

  lemma EnterTransferGood(e: Env, y: Endpoint, x: Endpoint)
    requires Good(e, y, x)
    requires x.state.Registration? && x.state.receivedLast && (x.state.lastKey.None? || y.state.Transfer?)
    ensures Good(e, y, EnterTransfer(x)) && Extends(x, EnterTransfer(x))
  {
    hide UpInv, AcceptOk, LanesOk, RoutedOk, BuffersOk, JoiningOk, TableOk, QuietOk, Extends;
    var x' := EnterTransfer(x);
    EnterTransferSelf(e, x);
    EnterTransferAccept(y, x);
    UpHasFinal(e, x);
    SameAll(e, y, x, x');
  }

  lemma UpHasFinal(e: Env, x: Endpoint)
    requires UpInv(e.mine, x)
    ensures x.tx.finalKey.Some?
  {
    hide SelfInv;
  }

  // ---- Acknowledgements from the peer ----

  lemma AckOneSelf(e: Env, x: Endpoint, k: Key)
    requires UpInv(e.mine, x)
    ensures UpInv(e.mine, AckOne(x, k)) && Extends(x, AckOne(x, k))
  {
    hide TxInv, BufferOk, UpInv, Extends, AccKeys;
    var x' := AckOne(x, k);
    UpTx(e, x);
    SilentExtends(x, x');
    ReleaseGood(e.mine, x.local, x.tx, x.rx.noted, k, x'.tx.released);
    SilentSelf(e, x, x');
  }

  lemma AckOneGood(e: Env, y: Endpoint, x: Endpoint, k: Key)
    requires Good(e, y, x) && k in y.rx.noted
    ensures Good(e, y, AckOne(x, k)) && Extends(x, AckOne(x, k)) && AckOne(x, k).rx == x.rx
  {
    hide UpInv, LanesOk, RoutedOk, BuffersOk, JoiningOk, TableOk, QuietOk, Extends;
    AckOneSelf(e, x, k);
    SameAll(e, y, x, AckOne(x, k));
  }

  lemma {:induction false} AckKeysGood(e: Env, y: Endpoint, x: Endpoint, ks: seq<Key>)
    requires Good(e, y, x) && KeysIn(ks, y.rx.noted)
    ensures var r := AckLocally(x, EncodeKeys(ks)); Good(e, y, r.x) && Extends(x, r.x) && r.x.rx == x.rx
    decreases |ks|
  {
    hide Good, AckOne, AccKeys;
    if ks != [] {
      var k, rest := ks[0], ks[1..];
      KeyRoundTrip(k, EncodeKeys(rest));
      if k.index < |x.tx.resender.slots.generations| {
        AckOneGood(e, y, x, k);
        AckKeysGood(e, y, AckOne(x, k), rest);
        ExtendsTrans(x, AckOne(x, k), AckLocally(AckOne(x, k), EncodeKeys(rest)).x);
      }
    }
  }

  lemma AckLocallyGood(e: Env, y: Endpoint, x: Endpoint, packet: Bytes)
    requires Good(e, y, x) && AckPayload(packet, y.rx.noted)
    ensures var r := AckLocally(x, packet); Good(e, y, r.x) && Extends(x, r.x) && r.x.rx == x.rx
  {
    hide Good, Extends, AckLocally, AccKeys;
    var ks :| packet == EncodeKeys(ks) && KeysIn(ks, y.rx.noted);
    AckKeysGood(e, y, x, ks);
  }

  lemma ConvertedGood(e: Env, y: Endpoint, x: Endpoint)
    requires Good(e, y, x)
    ensures Good(e, y, Converted(x)) && Extends(x, Converted(x))
    ensures Converted(x).rx.handled == x.rx.handled && Converted(x).rx.pushed == x.rx.pushed
    ensures Converted(x).rx.orderers == x.rx.orderers
  {
    hide Good;
    if x.state == Registration(true, None) {
      EnterTransferGood(e, y, x);
    }
  }

  // ---- The duplicate check ----

  lemma SameKeySamePacket(sent: seq<Packet>, p: Packet, q: Packet)
    requires KeysDistinct(sent) && p in sent && q in sent && p.key.Some? && p.key == q.key
    ensures p == q
  {
    var i :| 0 <= i < |sent| && sent[i] == p;
    var j :| 0 <= j < |sent| && sent[j] == q;
    assert i <= j && j <= i;
  }

  lemma KeyStage(y: Endpoint, x: Endpoint, p: Packet, a: Accepted)
    requires KeysDistinct(y.tx.sent) && AcceptOk(y, x)
    requires p in y.tx.sent && p.key == Some(a.key) && a in x.rx.accepted
    ensures a.stage == p.lane.stage
  {
    assert FromPeer(y.tx.sent, a);
    var q :| q in y.tx.sent && q.key == Some(a.key) && q.lane.stage == a.stage;
    SameKeySamePacket(y.tx.sent, p, q);
  }

  /// A key accepted in the other stage cannot come again in this one, so the set that is cleared
  /// between the stages still detects every duplicate.
  lemma DupIsEnough(y: Endpoint, x: Endpoint, p: Packet)
    requires KeysDistinct(y.tx.sent) && AcceptOk(y, x)
    requires p in y.tx.sent && p.key.Some? && p.lane.stage == StageOf(x.state)
    ensures p.key.value in x.rx.dup <==> p.key.value in AccKeys(x.rx)
  {
    forall a | a in x.rx.accepted && a.key == p.key.value
      ensures a.stage == StageOf(x.state)
    {
      KeyStage(y, x, p, a);
    }
  }

  ghost predicate AcceptStep(x: Endpoint, x': Endpoint, k: Key) {
    && x'.state == x.state
    && x'.rx == x.rx.(dup := x.rx.dup + {k}, accepted := x.rx.accepted + [Accepted(StageOf(x.state), k)],
                      noted := x'.rx.noted, listed := x'.rx.listed)
    && (x'.rx.noted == x.rx.noted || x'.rx.noted == x.rx.noted + {k})
  }

  lemma AcceptNew(y: Endpoint, x: Endpoint, p: Packet, x': Endpoint)
    requires AcceptOk(y, x) && p in y.tx.sent && p.key.Some? && p.lane.stage == StageOf(x.state)
    requires p.key.value !in AccKeys(x.rx) && AcceptStep(x, x', p.key.value)
    ensures AcceptOk(y, x') && AccKeys(x'.rx) == AccKeys(x.rx) + {p.key.value}
  {
    var k, a := p.key.value, Accepted(StageOf(x.state), p.key.value);
    assert x'.rx.accepted == x.rx.accepted + [a];
    assert forall b :: b in x'.rx.accepted <==> b in x.rx.accepted || b == a;
    forall b | b in x'.rx.accepted
      ensures FromPeer(y.tx.sent, b)
    {
      if b != a {
        assert FromPeer(y.tx.sent, b);
      }
    }
    forall i | 0 <= i < |x.rx.accepted|
      ensures x.rx.accepted[i].key != k
    {
      assert x.rx.accepted[i] in x.rx.accepted;
      assert x.rx.accepted[i].key in AccKeys(x.rx);
    }
    assert AccKeys(x'.rx) == AccKeys(x.rx) + {k};
    assert AccIn(x'.rx, a.stage) == AccIn(x.rx, a.stage) + {k};
  }

  /// Sending on other lanes leaves the announcements as they are.
  lemma AnnouncedKept(prov: Provider, x: Endpoint, x': Endpoint)
    requires AnnouncedOk(prov, x) && (x.tx.finalKey.Some? ==> AnnouncedAll(prov, x))
    requires x'.local == x.local && x'.tx.listing == x.tx.listing && x'.tx.finalKey == x.tx.finalKey
    requires Lookup(x'.tx.submitted, MANAGEMENT_LANE) == Lookup(x.tx.submitted, MANAGEMENT_LANE)
    requires IsPrefix(x.tx.sent, x'.tx.sent)
    ensures AnnouncedOk(prov, x') && (x'.tx.finalKey.Some? ==> AnnouncedAll(prov, x'))
  {
  }
}
