/** From an accepted datagram to what the receiver does with it. */
module Delivering {
  import opened Base
  import opened SlotKeys
  import opened Framing
  import opened Channels
  import opened Endpoints
  import opened Sending
  import opened Acknowledging
  import opened Invariants
  import opened Receiving
  import opened Registering
  import O = Ordering

  // ---- Sending on behalf of a receiver ----

  /// Sending on a lane of the current stage, other than the announcements', keeps an endpoint sound.
  lemma SendSelf(e: Env, x: Endpoint, x': Endpoint, lane: Lane)
    requires UpInv(e.mine, x) && x'.state == x.state && x'.local == x.local && x'.rx.buffers == x.rx.buffers
    requires OnlySends(x.tx, x'.tx) && NewOn(x.tx, x'.tx, lane) && IsPrefix(x.rx.accepted, x'.rx.accepted)
    requires x.rx.noted <= x'.rx.noted
    requires lane.stage == StageOf(x.state) && lane != MANAGEMENT_LANE
    requires lane.stage.Tra? ==> lane.chan != x.local.management
    requires TxInv(e.mine, x.local, x'.tx, x'.rx.noted) && BufferOk(x'.ack, x'.rx.noted)
    ensures UpInv(e.mine, x') && Extends(x, x')
  {
    hide TxInv, BufferOk, AnnouncedAll, AnnouncedOk;
    AnnouncedKept(e.mine, x, x');
  }

  lemma SendExtends(x: Endpoint, x': Endpoint)
    requires x'.state == x.state && x'.local == x.local && OnlySends(x.tx, x'.tx)
    requires IsPrefix(x.rx.accepted, x'.rx.accepted) && x.rx.noted <= x'.rx.noted
    ensures Extends(x, x')
  {
    hide TxGrows;
  }

  lemma AcceptGrows(x: Endpoint, x': Endpoint, k: Key)
    requires AcceptStep(x, x', k)
    ensures IsPrefix(x.rx.accepted, x'.rx.accepted) && x.rx.noted <= x'.rx.noted && SameReceipts(x, x')
    ensures x'.rx.buffers == x.rx.buffers && x'.state == x.state
  {
  }

  lemma AcceptShape(x: Endpoint, k: Key)
    requires k !in x.rx.dup && x.local.ack != NULL_ID
    ensures var r, a := Accept(x, Some(k)), Acknowledge(x.tx, x.ack, k, StageOf(x.state), x.local.ack);
            && AcceptStep(x, r.x, k) && r.x.tx == a.tx && r.x.ack == a.ack && r.x.local == x.local
            && r.x.rx.noted == (if a.out.Fine? then x.rx.noted + {k} else x.rx.noted)
  {
    hide Acknowledge;
  }

  lemma AcceptSelf(e: Env, x: Endpoint, k: Key, x': Endpoint)
    requires UpInv(e.mine, x) && Fits(k) && AcceptStep(x, x', k)
    requires var r := Acknowledge(x.tx, x.ack, k, StageOf(x.state), x.local.ack);
             x'.tx == r.tx && x'.ack == r.ack && x'.local == x.local
             && x'.rx.noted == if r.out.Fine? then x.rx.noted + {k} else x.rx.noted
    ensures Extends(x, x') && OnlySends(x.tx, x'.tx) && (x'.tx.wrapped || UpInv(e.mine, x'))
  {
    var stage := StageOf(x.state);
    UpParts(e, x);
    hide UpInv, TxInv, BufferOk, Acknowledge, AckLaneReady, Extends, OnlySends, NewOn, Fits;
    AcknowledgeGood(e.mine, x.local, x.tx, x.rx.noted, x.ack, k, stage);
    AcknowledgeOn(x.tx, x.ack, k, stage, x.local.ack);
    AcceptGrows(x, x', k);
    SendExtends(x, x');
    if !x'.tx.wrapped {
      SendSelf(e, x, x', AckLaneOf(stage, x.local.ack));
    }
  }

  lemma UpParts(e: Env, x: Endpoint)
    requires UpInv(e.mine, x)
    ensures TxInv(e.mine, x.local, x.tx, x.rx.noted) && BufferOk(x.ack, x.rx.noted)
    ensures AckLaneReady(e.mine, x.local)
    ensures x.local.ack != NULL_ID && x.local.ack != x.local.management
  {
    hide TxInv, BufferOk, AnnouncedOk;
    OwnSystemIds(e.mine, x);
  }

  lemma OwnSystemIds(prov: Provider, x: Endpoint)
    requires SelfInv(prov, x) && x.local.ack != NULL_ID
    ensures x.local.ack != x.local.management
  {
    hide TxInv, BufferOk, AnnouncedAll, StagesOk, Appended, IsListing;
    var front := x.tx.listing[..|x.local.localToGlobal|];
    assert DistinctEntries(front);
    SystemIdsDiffer(front);
  }

  lemma SystemIdsDiffer(entries: seq<Entry>)
    requires DistinctEntries(entries) && |entries| < NULL_ID && Appended(entries).ack != NULL_ID
    ensures Appended(entries).ack != Appended(entries).management
  {
    hide DistinctEntries, Appended;
    AppendedShape(entries);
    assert ACK_NAME[2] != MANAGEMENT_NAME[2];
  }

  lemma PeerParts(e: Env, y: Endpoint, p: Packet)
    requires PeerOk(e, y) && p in y.tx.sent
    ensures BareOk(e.theirs, y.local, y.tx, y.rx.noted, p) && KeysDistinct(y.tx.sent) && OrdersDistinct(y.tx.sent)
    ensures PacketOk(e.theirs, y.local, y.tx, y.rx.noted, p)
    ensures p.key.Some? ==> Fits(p.key.value)
    ensures p.lane.stage.Tra? ==> y.state.Transfer?
  {
  }

  lemma SendRecv(e: Env, y: Endpoint, x: Endpoint, x': Endpoint)
    requires RecvInv(e.mine, y, x) && SameReceipts(x, x') && x'.state == x.state && AcceptOk(y, x')
    requires x'.tx.released == x.tx.released && x'.tx.finalKey == x.tx.finalKey
    ensures RecvInv(e.mine, y, x')
  {
    hide AcceptOk, LanesOk, RoutedOk, BuffersOk, JoiningOk, TableOk, QuietOk;
    SameAll(e, y, x, x');
  }

  /// A keyed packet of the receiver's stage is accepted at most once in a lifetime, and then noted
  /// for acknowledgement.
  lemma AcceptGood(e: Env, y: Endpoint, x: Endpoint, p: Packet)
    requires PeerOk(e, y) && Good(e, y, x) && p in y.tx.sent && p.lane.stage == StageOf(x.state)
    ensures var r := Accept(x, p.key);
            && Extends(x, r.x) && r.x.state == x.state && SameReceipts(x, r.x)
            && (r.x.tx.wrapped || Good(e, y, r.x))
            && (r.out.Fine? && p.key.Some? ==> p.key.value in AccKeys(r.x.rx) && p.key.value !in AccKeys(x.rx))
  {
    hide Good, PeerOk, BareOk, PacketOk, Extends, UpInv, RecvInv, AcceptOk, KeysDistinct, OrdersDistinct, Acknowledge,
         AccKeys;
    ExtendsRefl(x);
    if p.key.Some? {
      PeerParts(e, y, p);
      GoodParts(e, y, x);
      DupIsEnough(y, x, p);
      if p.key.value !in x.rx.dup {
        AcceptFresh(e, y, x, p);
      }
    }
  }

  lemma ExtendsRefl(x: Endpoint)
    ensures Extends(x, x)
  {
  }

  lemma GoodParts(e: Env, y: Endpoint, x: Endpoint)
    requires Good(e, y, x)
    ensures AcceptOk(y, x) && UpInv(e.mine, x) && RecvInv(e.mine, y, x)
  {
    hide UpInv, AcceptOk, LanesOk, RoutedOk, BuffersOk, JoiningOk, TableOk, QuietOk, HandshakeOk, ReleasedOk;
  }

  lemma SendsReleased(tx: Tx, tx': Tx)
    requires OnlySends(tx, tx')
    ensures tx'.released == tx.released && tx'.finalKey == tx.finalKey
  {
    hide TxGrows;
  }

  lemma AcceptFresh(e: Env, y: Endpoint, x: Endpoint, p: Packet)
    requires UpInv(e.mine, x) && RecvInv(e.mine, y, x) && AcceptOk(y, x)
    requires p in y.tx.sent && p.key.Some? && Fits(p.key.value) && p.lane.stage == StageOf(x.state)
    requires p.key.value !in AccKeys(x.rx) && p.key.value !in x.rx.dup
    ensures var r := Accept(x, p.key);
            && Extends(x, r.x) && r.x.state == x.state && SameReceipts(x, r.x)
            && (r.x.tx.wrapped || Good(e, y, r.x))
            && p.key.value in AccKeys(r.x.rx)
  {
    UpParts(e, x);
    hide UpInv, RecvInv, AcceptOk, Extends, Accept, AcceptStep, Acknowledge, AccKeys, TxInv, BufferOk, AckLaneReady,
         SameReceipts, OnlySends;
    var k, r := p.key.value, Accept(x, p.key);
    AcceptShape(x, k);
    AcceptNew(y, x, p, r.x);
    AcceptGrows(x, r.x, k);
    AcceptSelf(e, x, k, r.x);
    SendsReleased(x.tx, r.x.tx);
    if !r.x.tx.wrapped {
      SendRecv(e, y, x, r.x);
    }
  }

  // ---- One payload of an application channel ----

  /// The table is complete and leads each lane to a different channel.
  lemma TableDistinct(e: Env, y: Endpoint, x: Endpoint)
    requires PeerOk(e, y) && Good(e, y, x) && x.state.Transfer?
    ensures Distinct(x.rx.notLocal.localToGlobal)
  {
    hide TxInv, BufferOk, AnnouncedAll, AcceptOk, LanesOk, QuietOk, BuffersOk, RoutedOk, JoiningOk, ReleasedOk,
         HandshakeOk, Matching;
    Agreement(e, y, x);
    RenamedDistinct(y.tx.listing, e.mine);
  }

  predicate Free(x: Endpoint, lane: Lane) {
    x.rx.orderers.Has(lane) ==> x.rx.orderers.At(lane).None?
  }

  /// The payload is the peer's, and on an ordered lane it is the next one.
  ghost predicate TurnOk(y: Endpoint, x: Endpoint, lane: Lane, ch: Channel, packet: Bytes) {
    var handled, made := Lookup(x.rx.handled, lane), Lookup(y.tx.submitted, lane);
    && (Clean(y.tx, lane) && ch.IsOrdered() ==>
          && |handled| < |made| && packet == made[|handled|]
          && (ch.IsReliable() ==> |handled| in Lookup(x.rx.pushed, lane)))
    && SentAs(made, ch, packet)
  }

  ghost predicate Placed(x: Endpoint, x': Endpoint, lane: Lane, g: nat, packet: Bytes) {
    && g in x.rx.buffers
    && x' == x.(rx := HandledNow(x.rx.(buffers := x.rx.buffers[g := x.rx.buffers[g] + [packet]]), lane, packet))
  }

  lemma PlacedLanes(e: Env, y: Endpoint, x: Endpoint, x': Endpoint, lane: Lane, g: nat, ch: Channel, packet: Bytes)
    requires LanesOk(e.mine, y, x) && Placed(x, x', lane, g, packet) && TurnOk(y, x, lane, ch, packet)
    requires lane.stage.Tra? && Behind(e.mine, x, lane.chan) == Some(ch) && (ch.IsOrdered() ==> Free(x, lane))
    ensures LanesOk(e.mine, y, x')
  {
    hide LaneOk, Clean;
    LogElsewhere(x.rx.handled, lane, packet);
    UntouchedLane(y, x, x', MANAGEMENT_LANE, true);
    forall c: nat | Behind(e.mine, x', c).Some? && Behind(e.mine, x', c).value.IsOrdered()
      ensures LaneOk(y, x', Lane(Tra, c), Behind(e.mine, x', c).value.IsReliable())
    {
      assert Behind(e.mine, x', c) == Behind(e.mine, x, c);
      if c == lane.chan {
        HandledLane(y, x, x', lane, ch.IsReliable(), packet);
      } else {
        UntouchedLane(y, x, x', Lane(Tra, c), Behind(e.mine, x, c).value.IsReliable());
      }
    }
  }

  lemma PlacedRouted(e: Env, y: Endpoint, x: Endpoint, x': Endpoint, lane: Lane, g: nat, ch: Channel, packet: Bytes)
    requires RoutedOk(e.mine, y, x) && Placed(x, x', lane, g, packet) && TurnOk(y, x, lane, ch, packet)
    requires lane.stage.Tra? && Behind(e.mine, x, lane.chan) == Some(ch)
    ensures RoutedOk(e.mine, y, x')
  {
    hide Clean, SentAs, WindowRouted;
    LogElsewhere(x.rx.handled, lane, packet);
    forall c: nat | Behind(e.mine, x', c).Some?
      ensures RoutedOn(y, x', Lane(Tra, c), Behind(e.mine, x', c).value)
    {
      assert Behind(e.mine, x', c) == Behind(e.mine, x, c);
      assert WindowOf(x', Lane(Tra, c)) == WindowOf(x, Lane(Tra, c));
    }
  }

  lemma PlacedBuffers(x: Endpoint, x': Endpoint, lane: Lane, g: nat, packet: Bytes)
    requires BuffersOk(x) && Placed(x, x', lane, g, packet) && Distinct(x.rx.notLocal.localToGlobal)
    requires lane.stage.Tra? && lane.chan < |x.rx.notLocal.localToGlobal| && x.rx.notLocal.localToGlobal[lane.chan] == g
    ensures BuffersOk(x')
  {
    LogElsewhere(x.rx.handled, lane, packet);
    forall g' | g' in x'.rx.buffers && x'.rx.buffers[g'] != []
      ensures HasLane(x', g')
    {
      assert g' != g ==> HasLane(x, g');
    }
  }

  lemma PlacedGood(e: Env, y: Endpoint, x: Endpoint, x': Endpoint, lane: Lane, g: nat, ch: Channel, packet: Bytes)
    requires UpInv(e.mine, x) && RecvInv(e.mine, y, x) && Distinct(x.rx.notLocal.localToGlobal)
    requires lane.stage.Tra? && LaneReady(e.mine, x, lane, g, ch) && Placed(x, x', lane, g, packet)
    requires TurnOk(y, x, lane, ch, packet) && (ch.IsOrdered() ==> Free(x, lane))
    ensures Good(e, y, x') && Extends(x, x')
    ensures Lookup(x'.rx.handled, lane) == Lookup(x.rx.handled, lane) + [packet]
  {
    hide UpInv, AcceptOk, LanesOk, RoutedOk, BuffersOk, JoiningOk, TableOk, HandshakeOk, ReleasedOk, Extends, TurnOk;
    assert Behind(e.mine, x, lane.chan) == Some(ch);
    LogElsewhere(x.rx.handled, lane, packet);
    UpSame(e, x, x');
    AcceptSame(y, x, x');
    SameTable(e, y, x, x');
    PlacedLanes(e, y, x, x', lane, g, ch, packet);
    PlacedRouted(e, y, x, x', lane, g, ch, packet);
    PlacedBuffers(x, x', lane, g, packet);
    SameOthers(y, x, x');
  }

  // ---- One payload of an ordered lane, in its turn ----

  /// How a turn leaves the lane: one payload further, its orderer still out.
  ghost predicate TurnDone(x: Endpoint, x': Endpoint, lane: Lane, packet: Bytes) {
    && Lookup(x'.rx.handled, lane) == Lookup(x.rx.handled, lane) + [packet]
    && x'.rx.pushed == x.rx.pushed
    && x'.rx.orderers.Has(lane) && x'.rx.orderers.At(lane).None?
    && (lane.stage.Tra? ==> x'.rx.notLocal == x.rx.notLocal && x'.state == x.state)
  }

  lemma RegistrationTurn(e: Env, y: Endpoint, x: Endpoint, packet: Bytes)
    requires PeerOk(e, y) && Good(e, y, x) && x.state.Registration? && Free(x, MANAGEMENT_LANE)
    requires TurnOk(y, x, MANAGEMENT_LANE, MANAGEMENT_CHANNEL, packet)
    ensures var r := Register(x, e.mine, packet);
            && Good(e, y, r.x) && Extends(x, r.x) && !r.out.Crash?
            && (r.out.Fine? ==> TurnDone(x, r.x, MANAGEMENT_LANE, packet))
  {
    hide UpInv, PeerOk, AcceptOk, LanesOk, RoutedOk, BuffersOk, JoiningOk, TableOk, HandshakeOk, ReleasedOk, Extends,
         Clean, Register;
    CleanRegistration(e, y, MANAGEMENT_LANE);
    RegisterGood(e, y, x, packet);
  }

  lemma TransferTurn(e: Env, y: Endpoint, x: Endpoint, lane: Lane, g: nat, ch: Channel, packet: Bytes)
    requires PeerOk(e, y) && Good(e, y, x) && x.state.Transfer? && LaneReady(e.mine, x, lane, g, ch) && ch.IsOrdered()
    requires x.rx.orderers.Has(lane) && Free(x, lane) && TurnOk(y, x, lane, ch, packet)
    ensures var r := HandleOne(x, e.mine, lane, g, packet);
            Good(e, y, r.x) && Extends(x, r.x) && (r.out.Fine? ==> TurnDone(x, r.x, lane, packet))
  {
    hide UpInv, RecvInv, PeerOk, Extends, TurnOk, AckLocally, TxInv, Behind;
    GoodParts(e, y, x);
    SameKind(e, y, x, lane, g, ch);
    TableDistinct(e, y, x);
    ExtendsRefl(x);
    var r := HandleOne(x, e.mine, lane, g, packet);
    if r.out.Fine? {
      PlacedGood(e, y, x, r.x, lane, g, ch, packet);
    }
  }

  // ---- Draining the orderer ----

  /// The orderer of a lane is out, with window `w`.
  ghost predicate Draining(e: Env, y: Endpoint, x: Endpoint, lane: Lane, g: nat, ch: Channel, w: O.Window) {
    && Good(e, y, x) && ch.IsOrdered()
    && x.rx.orderers.Has(lane) && x.rx.orderers.At(lane).None?
    && (Clean(y.tx, lane) ==> InFlight(y, x, lane, ch.IsReliable(), w))
    && WindowRouted(Lookup(y.tx.submitted, lane), ch, w) && w.Valid()
    && (if lane.stage.Tra? then LaneReady(e.mine, x, lane, g, ch)
        else lane == MANAGEMENT_LANE && g == MANAGEMENT_ID_REGISTRATION && ch == MANAGEMENT_CHANNEL)
  }

  /// The announcements end with the stage, so nothing of them is left to drain in transfer.
  lemma StillRegistering(e: Env, y: Endpoint, x: Endpoint, w: O.Window)
    requires PeerOk(e, y) && Good(e, y, x) && InFlight(y, x, MANAGEMENT_LANE, true, w) && w.start in w.pending
    ensures x.state.Registration?
  {
    hide UpInv, AcceptOk, LanesOk, RoutedOk, BuffersOk, JoiningOk, HandshakeOk, ReleasedOk;
    AnnouncementAt(e, y, w.start);
  }

  lemma TurnFromWindow(y: Endpoint, x: Endpoint, lane: Lane, ch: Channel, w: O.Window)
    requires ch.IsOrdered() && (Clean(y.tx, lane) ==> InFlight(y, x, lane, ch.IsReliable(), w)) && w.start in w.pending
    requires WindowRouted(Lookup(y.tx.submitted, lane), ch, w)
    ensures TurnOk(y, x, lane, ch, w.pending[w.start])
  {
  }

  lemma WindowAfterTurn(e: Env, y: Endpoint, x: Endpoint, x': Endpoint, lane: Lane, ch: Channel, w: O.Window)
    requires PeerOk(e, y) && LaneChannel(e.theirs, y.local, lane).Some?
    requires LaneChannel(e.theirs, y.local, lane).value.IsOrdered()
    requires w.start in w.pending && TurnDone(x, x', lane, w.pending[w.start])
    requires Clean(y.tx, lane) && InFlight(y, x, lane, ch.IsReliable(), w)
    ensures InFlight(y, x', lane, ch.IsReliable(), w.Advance())
  {
    hide PeerOk, Clean, LaneChannel;
    SubmittedBound(e, y, lane);
  }

  lemma SubmittedBound(e: Env, y: Endpoint, lane: Lane)
    requires PeerOk(e, y) && LaneChannel(e.theirs, y.local, lane).Some?
    requires LaneChannel(e.theirs, y.local, lane).value.IsOrdered()
    ensures |Lookup(y.tx.submitted, lane)| < U32
  {
    hide BufferOk, AnnouncedOk, AnnouncedAll, SlotsOk, PacketOk, OnWire;
  }

  lemma DrainStep(e: Env, y: Endpoint, x: Endpoint, lane: Lane, g: nat, ch: Channel, w: O.Window)
    requires PeerOk(e, y) && Draining(e, y, x, lane, g, ch, w) && w.start in w.pending
    ensures var r := HandleOne(x, e.mine, lane, g, w.pending[w.start]);
            && Good(e, y, r.x) && Extends(x, r.x) && (lane.stage.Reg? ==> !r.out.Crash?)
            && (r.out.Fine? ==> Draining(e, y, r.x, lane, g, ch, w.Advance()))
  {
    hide Good, PeerOk, Extends, TurnOk, InFlight, Clean, LaneChannel, Register, WindowRouted, O.Window.Valid;
    var r := HandleOne(x, e.mine, lane, g, w.pending[w.start]);
    TurnFromWindow(y, x, lane, ch, w);
    if lane.stage.Tra? {
      TransferTurn(e, y, x, lane, g, ch, w.pending[w.start]);
      SameKind(e, y, x, lane, g, ch);
    } else {
      CleanRegistration(e, y, MANAGEMENT_LANE);
      StillRegistering(e, y, x, w);
      RegistrationTurn(e, y, x, w.pending[w.start]);
      ManagementKind(e, y);
    }
    if r.out.Fine? {
      O.AdvanceValid(w);
      AdvanceRouted(Lookup(y.tx.submitted, lane), ch, w);
      if Clean(y.tx, lane) {
        WindowAfterTurn(e, y, x, r.x, lane, ch, w);
      }
    }
  }

  lemma AdvanceRouted(made: seq<Bytes>, ch: Channel, w: O.Window)
    requires WindowRouted(made, ch, w)
    ensures WindowRouted(made, ch, w.Advance())
  {
  }

  lemma ManagementKind(e: Env, y: Endpoint)
    ensures LaneChannel(e.theirs, y.local, MANAGEMENT_LANE) == Some(MANAGEMENT_CHANNEL)
  {
  }

  lemma {:induction false} DrainGood(e: Env, y: Endpoint, x: Endpoint, lane: Lane, g: nat, ch: Channel, w: O.Window)
    requires PeerOk(e, y) && Draining(e, y, x, lane, g, ch, w)
    ensures var d := O.Drain(w, Handler(e.mine, lane, g), Res(x, Fine));
            && Good(e, y, d.state.x) && Extends(x, d.state.x)
            && (d.fine ==> d.state.out.Fine? && Draining(e, y, d.state.x, lane, g, ch, d.window))
    decreases |w.pending|
  {
    hide PeerOk, Extends, HandleOne, Draining;
    ExtendsRefl(x);
    DrainingGood(e, y, x, lane, g, ch, w);
    if w.start in w.pending {
      var r := HandleOne(x, e.mine, lane, g, w.pending[w.start]);
      DrainStep(e, y, x, lane, g, ch, w);
      O.Smaller(w);
      if r.out.Fine? {
        DrainGood(e, y, r.x, lane, g, ch, w.Advance());
        ExtendsTrans(x, r.x, O.Drain(w.Advance(), Handler(e.mine, lane, g), r).state.x);
      }
    }
  }

  lemma DrainingGood(e: Env, y: Endpoint, x: Endpoint, lane: Lane, g: nat, ch: Channel, w: O.Window)
    requires Draining(e, y, x, lane, g, ch, w)
    ensures Good(e, y, x)
  {
  }

  // ---- Taking the orderer out and putting it back ----

  /// Only this lane's orderer and its list of pushed orders differ.
  ghost predicate OrdererChanged(x: Endpoint, x': Endpoint, lane: Lane, w: Option<O.Window>) {
    && x.rx.orderers.Has(lane)
    && x' == x.(rx := x.rx.(orderers := x.rx.orderers.With(lane, w), pushed := x'.rx.pushed))
    && (forall l :: l != lane ==> Lookup(x'.rx.pushed, l) == Lookup(x.rx.pushed, l))
  }

  lemma OrdererLanes(e: Env, y: Endpoint, x: Endpoint, x': Endpoint, lane: Lane, w: Option<O.Window>, ch: Channel)
    requires LanesOk(e.mine, y, x) && OrdererChanged(x, x', lane, w) && LaneOk(y, x', lane, ch.IsReliable())
    requires if lane.stage.Tra? then Behind(e.mine, x, lane.chan) == Some(ch)
             else lane == MANAGEMENT_LANE && ch == MANAGEMENT_CHANNEL
    ensures LanesOk(e.mine, y, x')
  {
    hide LaneOk;
    if lane != MANAGEMENT_LANE {
      UntouchedLane(y, x, x', MANAGEMENT_LANE, true);
    }
    forall c: nat | Behind(e.mine, x', c).Some? && Behind(e.mine, x', c).value.IsOrdered()
      ensures LaneOk(y, x', Lane(Tra, c), Behind(e.mine, x', c).value.IsReliable())
    {
      assert Behind(e.mine, x', c) == Behind(e.mine, x, c);
      if lane != Lane(Tra, c) {
        UntouchedLane(y, x, x', Lane(Tra, c), Behind(e.mine, x, c).value.IsReliable());
      }
    }
  }

  lemma OrdererRouted(e: Env, y: Endpoint, x: Endpoint, x': Endpoint, lane: Lane, w: Option<O.Window>, ch: Channel)
    requires OrdererChanged(x, x', lane, w) && RoutedOk(e.mine, y, x)
    requires lane.stage.Tra? ==> Behind(e.mine, x, lane.chan) == Some(ch)
    requires w.Some? ==> WindowRouted(Lookup(y.tx.submitted, lane), ch, w.value)
    ensures RoutedOk(e.mine, y, x')
  {
    hide SentAs, WindowRouted;
    forall c: nat | Behind(e.mine, x', c).Some?
      ensures RoutedOn(y, x', Lane(Tra, c), Behind(e.mine, x', c).value)
    {
      assert Behind(e.mine, x', c) == Behind(e.mine, x, c);
      assert lane != Lane(Tra, c) ==> WindowOf(x', Lane(Tra, c)) == WindowOf(x, Lane(Tra, c));
    }
  }

  lemma OrdererRest(x: Endpoint, x': Endpoint, lane: Lane, w: Option<O.Window>)
    requires OrdererChanged(x, x', lane, w) && (lane.stage.Tra? ==> x.state.Transfer?) && (w.Some? ==> w.value.Valid())
    ensures BuffersOk(x) ==> BuffersOk(x')
    ensures QuietOk(x) ==> QuietOk(x')
  {
    if BuffersOk(x) {
      forall g | g in x'.rx.buffers && x'.rx.buffers[g] != []
        ensures HasLane(x', g)
      {
        assert HasLane(x, g);
      }
    }
    if QuietOk(x) {
      forall l: Lane | x'.rx.orderers.Has(l) && x'.rx.orderers.At(l).Some?
        ensures x'.rx.orderers.At(l).value.Valid()
      {
        assert x'.rx.orderers.At(l) == if l == lane then w else x.rx.orderers.At(l);
      }
      forall l: Lane
        ensures WindowOf(x', l) == if l == lane then w else WindowOf(x, l)
      {
      }
    }
  }

  lemma OrdererGood(e: Env, y: Endpoint, x: Endpoint, x': Endpoint, lane: Lane, w: Option<O.Window>, ch: Channel)
    requires Good(e, y, x) && OrdererChanged(x, x', lane, w) && LaneOk(y, x', lane, ch.IsReliable())
    requires if lane.stage.Tra? then x.state.Transfer? && Behind(e.mine, x, lane.chan) == Some(ch)
             else lane == MANAGEMENT_LANE && ch == MANAGEMENT_CHANNEL
    requires w.Some? ==> WindowRouted(Lookup(y.tx.submitted, lane), ch, w.value) && w.value.Valid()
    ensures Good(e, y, x') && Extends(x, x')
  {
    hide UpInv, AcceptOk, LanesOk, RoutedOk, BuffersOk, QuietOk, JoiningOk, TableOk, HandshakeOk, ReleasedOk, Extends,
         LaneOk, WindowRouted;
    UpSame(e, x, x');
    AcceptSame(y, x, x');
    SameTable(e, y, x, x');
    OrdererLanes(e, y, x, x', lane, w, ch);
    OrdererRouted(e, y, x, x', lane, w, ch);
    OrdererRest(x, x', lane, w);
    SameOthers(y, x, x');
  }

  /// An order that may be pushed on the lane: it is the payload's own, and new to a reliable lane.
  ghost predicate OrderOk(y: Endpoint, x: Endpoint, lane: Lane, ch: Channel, order: nat, payload: Bytes) {
    Clean(y.tx, lane) ==>
      && order < |Lookup(y.tx.submitted, lane)| && payload == Lookup(y.tx.submitted, lane)[order]
      && (ch.IsReliable() ==> order !in Lookup(x.rx.pushed, lane) && OrderAccepted(y, x, lane, order))
  }

  lemma LaneOf(e: Env, y: Endpoint, x: Endpoint, lane: Lane, ch: Channel)
    requires LanesOk(e.mine, y, x) && ch.IsOrdered()
    requires if lane.stage.Tra? then Behind(e.mine, x, lane.chan) == Some(ch)
             else lane == MANAGEMENT_LANE && ch == MANAGEMENT_CHANNEL
    ensures LaneOk(y, x, lane, ch.IsReliable())
  {
    hide LaneOk;
  }

  lemma TakenLane(y: Endpoint, x: Endpoint, x': Endpoint, lane: Lane, ch: Channel, order: nat, payload: Bytes)
    requires LaneOk(y, x, lane, ch.IsReliable()) && OrderOk(y, x, lane, ch, order, payload)
    requires OrdererChanged(x, x', lane, None) && Lookup(x'.rx.pushed, lane) == Lookup(x.rx.pushed, lane) + [order]
    ensures LaneOk(y, x', lane, ch.IsReliable())
  {
    if Clean(y.tx, lane) && ch.IsReliable() {
      forall o | o in Lookup(x'.rx.pushed, lane)
        ensures OrderAccepted(y, x', lane, o)
      {
        assert o != order ==> OrderAccepted(y, x, lane, o);
      }
    }
  }

  lemma PushedWindow(y: Endpoint, x: Endpoint, x': Endpoint, lane: Lane, ch: Channel, order: nat, payload: Bytes,
        w: O.Window)
    requires LaneOk(y, x, lane, ch.IsReliable()) && OrderOk(y, x, lane, ch, order, payload)
    requires x.rx.orderers.Has(lane) && x.rx.orderers.At(lane) == Some(w) && w.Push(order, payload).Some?
    requires x'.rx.handled == x.rx.handled && Lookup(x'.rx.pushed, lane) == Lookup(x.rx.pushed, lane) + [order]
    ensures Clean(y.tx, lane) ==> InFlight(y, x', lane, ch.IsReliable(), w.Push(order, payload).value)
  {
  }

  lemma TakenShape(x: Endpoint, lane: Lane, order: nat)
    requires x.rx.orderers.Has(lane)
    ensures var t := Taken(x, lane, order);
            && OrdererChanged(x, t, lane, None)
            && Lookup(t.rx.pushed, lane) == Lookup(x.rx.pushed, lane) + [order]
            && t.rx.orderers.Has(lane) && t.rx.orderers.At(lane).None? && t.rx.handled == x.rx.handled
            && t.rx.notLocal == x.rx.notLocal && t.state == x.state
  {
    LogElsewhere(x.rx.pushed, lane, order);
  }

  lemma PutBack(e: Env, y: Endpoint, x: Endpoint, lane: Lane, g: nat, ch: Channel, w: O.Window)
    requires Draining(e, y, x, lane, g, ch, w)
    ensures Good(e, y, WithOrderer(x, lane, Some(w))) && Extends(x, WithOrderer(x, lane, Some(w)))
  {
    hide Good, RecvInv, UpInv, LanesOk, LaneOk, InFlight, Clean, WindowRouted, O.Window.Valid, Extends;
    var x' := WithOrderer(x, lane, Some(w));
    GoodParts(e, y, x);
    RecvLanes(e, y, x);
    LaneOf(e, y, x, lane, ch);
    assert Lookup(x'.rx.pushed, lane) == Lookup(x.rx.pushed, lane);
    PutBackLane(y, x, x', lane, ch, w);
    OrdererGood(e, y, x, x', lane, Some(w), ch);
  }

  lemma PutBackLane(y: Endpoint, x: Endpoint, x': Endpoint, lane: Lane, ch: Channel, w: O.Window)
    requires LaneOk(y, x, lane, ch.IsReliable()) && (Clean(y.tx, lane) ==> InFlight(y, x, lane, ch.IsReliable(), w))
    requires x.rx.orderers.Has(lane) && x' == x.(rx := x.rx.(orderers := x.rx.orderers.With(lane, Some(w))))
    ensures LaneOk(y, x', lane, ch.IsReliable())
  {
    if Clean(y.tx, lane) && ch.IsReliable() {
      forall o | o in Lookup(x'.rx.pushed, lane)
        ensures OrderAccepted(y, x', lane, o)
      {
        assert OrderAccepted(y, x, lane, o);
      }
    }
  }

  // ---- A complete message ----

  /// Lane of an ordered channel as draining sees it.
  lemma OrderedLane(e: Env, x: Endpoint, lane: Lane, g: nat, ch: Channel)
    requires LaneReady(e.mine, x, lane, g, ch) && ch.IsOrdered()
    ensures if lane.stage.Tra? then x.state.Transfer? && Behind(e.mine, x, lane.chan) == Some(ch)
            else lane == MANAGEMENT_LANE && ch == MANAGEMENT_CHANNEL && g == MANAGEMENT_ID_REGISTRATION
  {
  }

  lemma OrderedGood(e: Env, y: Endpoint, x: Endpoint, lane: Lane, g: nat, ch: Channel, order: nat, payload: Bytes)
    requires PeerOk(e, y) && Good(e, y, x) && LaneReady(e.mine, x, lane, g, ch) && ch.IsOrdered()
    requires order < USIZE && OrderOk(y, x, lane, ch, order, payload)
    requires SentAs(Lookup(y.tx.submitted, lane), ch, payload)
    ensures var r := Deliver(x, e.mine, lane, g, Some(order), payload); Good(e, y, r.x) && Extends(x, r.x)
  {
    hide Good, PeerOk, UpInv, RecvInv, LanesOk, LaneOk, Extends, OrderOk, InFlight, Clean, Handler, OrdererChanged,
         Taken, Behind, O.Drain, SentAs, WindowRouted;
    GoodParts(e, y, x);
    RecvLanes(e, y, x);
    OrderedLane(e, x, lane, g, ch);
    ExtendsRefl(x);
    if x.rx.orderers.Has(lane) && x.rx.orderers.At(lane).Some? {
      var w, t := x.rx.orderers.At(lane).value, Taken(x, lane, order);
      LaneOf(e, y, x, lane, ch);
      TakenShape(x, lane, order);
      TakenLane(y, x, t, lane, ch, order, payload);
      OrdererGood(e, y, x, t, lane, None, ch);
      if w.Push(order, payload).Some? && !w.Bursts(order) {
        var w' := w.Push(order, payload).value;
        PushedWindow(y, x, t, lane, ch, order, payload, w);
        PushedRouted(e, y, x, lane, g, ch, w, order, payload);
        var d := O.Drain(w', Handler(e.mine, lane, g), Res(t, Fine));
        DrainGood(e, y, t, lane, g, ch, w');
        ExtendsTrans(x, t, d.state.x);
        if d.fine {
          PutBack(e, y, d.state.x, lane, g, ch, d.window);
          ExtendsTrans(x, d.state.x, WithOrderer(d.state.x, lane, Some(d.window)));
        }
      }
    }
  }

  lemma PushedRouted(e: Env, y: Endpoint, x: Endpoint, lane: Lane, g: nat, ch: Channel, w: O.Window, order: nat,
        payload: Bytes)
    requires PeerOk(e, y) && Good(e, y, x) && LaneReady(e.mine, x, lane, g, ch) && ch.IsOrdered()
    requires WindowOf(x, lane) == Some(w) && !w.Refuses(order) && SentAs(Lookup(y.tx.submitted, lane), ch, payload)
    requires order < USIZE && !w.Bursts(order)
    ensures WindowRouted(Lookup(y.tx.submitted, lane), ch, w.Push(order, payload).value)
    ensures w.Push(order, payload).value.Valid()
  {
    hide PeerOk, Good, SentAs, Clean;
    OrderedLane(e, x, lane, g, ch);
    WaitingRouted(e, y, x, lane, ch);
  }

  lemma WaitingRouted(e: Env, y: Endpoint, x: Endpoint, lane: Lane, ch: Channel)
    requires PeerOk(e, y) && Good(e, y, x) && WindowOf(x, lane).Some? && ch.IsOrdered()
    requires if lane.stage.Tra? then Behind(e.mine, x, lane.chan) == Some(ch) else lane == MANAGEMENT_LANE
    ensures WindowRouted(Lookup(y.tx.submitted, lane), ch, WindowOf(x, lane).value) && WindowOf(x, lane).value.Valid()
  {
    hide PeerOk, UpInv, AcceptOk, BuffersOk, JoiningOk, TableOk, HandshakeOk, ReleasedOk, Clean, PushedOk, Restripped;
    if lane.stage.Reg? {
      CleanRegistration(e, y, lane);
    }
  }

  lemma RecvLanes(e: Env, y: Endpoint, x: Endpoint)
    requires RecvInv(e.mine, y, x)
    ensures LanesOk(e.mine, y, x)
  {
    hide AcceptOk, LanesOk, RoutedOk, BuffersOk, QuietOk, JoiningOk, TableOk, HandshakeOk, ReleasedOk;
  }

  lemma UnorderedGood(e: Env, y: Endpoint, x: Endpoint, lane: Lane, g: nat, ch: Channel, payload: Bytes)
    requires PeerOk(e, y) && Good(e, y, x) && LaneReady(e.mine, x, lane, g, ch) && !ch.IsOrdered()
    requires SentAs(Lookup(y.tx.submitted, lane), ch, payload)
    requires IsAckLane(y.local, lane) ==> AckPayload(payload, y.rx.noted)
    ensures var r := HandleOne(x, e.mine, lane, g, payload); Good(e, y, r.x) && Extends(x, r.x)
  {
    hide Good, PeerOk, UpInv, RecvInv, Extends, AckLocally, Converted, Register, AckPayload, AccKeys, Clean,
         LaneChannel;
    GoodParts(e, y, x);
    SameKind(e, y, x, lane, g, ch);
    ExtendsRefl(x);
    var r := HandleOne(x, e.mine, lane, g, payload);
    if x.state.Registration? {
      var a := AckLocally(x, payload);
      AckLocallyGood(e, y, x, payload);
      ConvertedGood(e, y, a.x);
      ExtendsTrans(x, a.x, Converted(a.x));
    } else if x.rx.notLocal.ack != NULL_ID && x.rx.notLocal.ack == lane.chan {
      AckLocallyGood(e, y, x, payload);
    } else if r.out.Fine? {
      TableDistinct(e, y, x);
      PlacedGood(e, y, x, r.x, lane, g, ch, payload);
    }
  }

  /// What may be delivered: the peer's payload with its own order; keys on the ack lane.
  ghost predicate Genuine(y: Endpoint, x: Endpoint, lane: Lane, ch: Channel, order: Option<nat>, payload: Bytes) {
    && (order.Some? <==> ch.IsOrdered())
    && (order.Some? ==> order.value < USIZE && OrderOk(y, x, lane, ch, order.value, payload))
    && SentAs(Lookup(y.tx.submitted, lane), ch, payload)
    && (IsAckLane(y.local, lane) ==> AckPayload(payload, y.rx.noted))
  }

  lemma DeliverGood(e: Env, y: Endpoint, x: Endpoint, lane: Lane, g: nat, ch: Channel, order: Option<nat>,
        payload: Bytes)
    requires PeerOk(e, y) && Good(e, y, x) && LaneReady(e.mine, x, lane, g, ch)
    requires Genuine(y, x, lane, ch, order, payload)
    ensures var r := Deliver(x, e.mine, lane, g, order, payload); Good(e, y, r.x) && Extends(x, r.x)
  {
    hide Good, PeerOk, Extends, LaneReady, OrderOk, AckPayload, AccKeys, Clean, IsAckLane, HandleOne;
    if order.Some? {
      OrderedGood(e, y, x, lane, g, ch, order.value, payload);
    } else {
      UnorderedGood(e, y, x, lane, g, ch, payload);
    }
  }
}
