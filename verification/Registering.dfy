/** The registration stage: each announcement, in its turn, extends the receiver's table. */
module Registering {
  import opened Base
  import opened VarInt
  import opened Framing
  import opened Strings
  import opened Channels
  import opened Endpoints
  import opened Sending
  import opened Acknowledging
  import opened Invariants
  import opened Receiving
  import O = Ordering

  lemma UpSame(e: Env, x: Endpoint, x': Endpoint)
    requires UpInv(e.mine, x) && x'.tx == x.tx && x'.ack == x.ack && x'.local == x.local
    requires x'.state.Transfer? == x.state.Transfer?
    requires x'.rx.accepted == x.rx.accepted && x'.rx.noted == x.rx.noted && x'.rx.buffers.Keys == x.rx.buffers.Keys
    ensures UpInv(e.mine, x') && Extends(x, x')
  {
    hide TxInv, BufferOk, AnnouncedOk, AnnouncedAll;
    AnnouncedKept(e.mine, x, x');
    forall n | n in e.mine.names
      ensures e.mine.names[n] in x'.rx.buffers
    {
      assert e.mine.names[n] in x.rx.buffers.Keys;
    }
  }

  lemma AcceptSame(y: Endpoint, x: Endpoint, x': Endpoint)
    requires AcceptOk(y, x) && x'.rx.accepted == x.rx.accepted && x'.rx.noted == x.rx.noted && x'.rx.dup == x.rx.dup
    requires x'.state.Transfer? == x.state.Transfer?
    ensures AcceptOk(y, x')
  {
    assert AccIn(x'.rx, StageOf(x'.state)) == AccIn(x.rx, StageOf(x.state));
  }

  // ---- What an announcement says ----

  lemma AnnouncementReads(name: Bytes, i: nat)
    requires |name| <= MAX_NAME && i < U32
    ensures DecodeStr(RegistrationPayload(name, i), MAX_NAME) == Got(Some(name), Encode(i))
    ensures Decode(Encode(i), 32) == Got(i, [])
  {
    StrRoundTrip(name, MAX_NAME, Encode(i));
    RoundTrip32(i, []);
    assert Encode(i) + [] == Encode(i);
  }

  lemma FinalReads()
    ensures DecodeStr(FINAL_PAYLOAD, MAX_NAME) == Got(Some([]), [])
  {
    StrRoundTrip([], MAX_NAME, []);
    assert EncodeStr([], MAX_NAME).value + [] == FINAL_PAYLOAD;
  }

  /// The next announcement is the peer's, and its order has been noted.
  ghost predicate NextAnnouncement(y: Endpoint, x: Endpoint, packet: Bytes) {
    var k, made := |Lookup(x.rx.handled, MANAGEMENT_LANE)|, Lookup(y.tx.submitted, MANAGEMENT_LANE);
    && k < |made| && packet == made[k]
    && k in Lookup(x.rx.pushed, MANAGEMENT_LANE)
    && x.rx.orderers.management.None?
  }

  /// After the announcement of `listing[k]`, with the receiver's own id for its name.
  ghost predicate Entered(e: Env, y: Endpoint, x: Endpoint, x': Endpoint, packet: Bytes) {
    var k := |Lookup(x.rx.handled, MANAGEMENT_LANE)|;
    && k < |y.tx.listing| && y.tx.listing[k].name in e.mine.names
    && var g := e.mine.names[y.tx.listing[k].name];
    && g < |e.mine.channels|
    && x.rx.notLocal.Insert(k, g, y.tx.listing[k].name).Some?
    && var ch := e.mine.channels[g];
    && x' == x.(rx := x'.rx)
    && x'.rx == HandledNow(x.rx.(notLocal := x.rx.notLocal.Insert(k, g, y.tx.listing[k].name).value,
         orderers := if ch.IsOrdered() then x.rx.orderers.Set(k, Some(O.NewWindow(ch.capacity.value)), None)
                     else x.rx.orderers),
         MANAGEMENT_LANE, packet)
  }

  /// The peer's announcement at a position of its listing.
  lemma AnnouncementAt(e: Env, y: Endpoint, k: nat)
    requires PeerOk(e, y) && k < |Lookup(y.tx.submitted, MANAGEMENT_LANE)|
    ensures k <= |y.tx.listing| < U32 && ListingOk(e.theirs, y.tx.listing)
    ensures Lookup(y.tx.submitted, MANAGEMENT_LANE)[k]
         == if k < |y.tx.listing| then RegistrationPayload(y.tx.listing[k].name, k) else FINAL_PAYLOAD
    ensures k < |y.tx.listing| ==> y.tx.listing[k].name != [] && |y.tx.listing[k].name| <= MAX_NAME
  {
    hide TxInv, BufferOk, AnnouncedAll;
    var made := Lookup(y.tx.submitted, MANAGEMENT_LANE);
    assert made[k] == Announcements(y.tx.listing)[k];
  }

  lemma TableLength(e: Env, y: Endpoint, x: Endpoint)
    requires TableOk(e.mine, y, x)
    ensures |x.rx.notLocal.localToGlobal| == Registered(y, x)
    ensures x.state.Registration? && |Lookup(x.rx.handled, MANAGEMENT_LANE)| <= |y.tx.listing| ==> !x.state.receivedLast
  {
  }

  lemma RegisterEntry(e: Env, y: Endpoint, x: Endpoint, packet: Bytes, rest: Bytes)
    requires e.mine.WellFormed() && |Lookup(x.rx.handled, MANAGEMENT_LANE)| < |y.tx.listing|
    requires var k := |Lookup(x.rx.handled, MANAGEMENT_LANE)|;
             && DecodeStr(packet, MAX_NAME) == Got(Some(y.tx.listing[k].name), rest) && y.tx.listing[k].name != []
             && Decode(rest, 32).Got? && Decode(rest, 32).value == k
    ensures var r := Register(x, e.mine, packet);
            !r.out.Crash? && if r.out.Fine? then Entered(e, y, x, r.x, packet) else r.x == x
  {
    hide DecodeStr, Decode;
    var k := |Lookup(x.rx.handled, MANAGEMENT_LANE)|;
    var name := y.tx.listing[k].name;
    if name in e.mine.names {
      assert e.mine.names[name] < |e.mine.channels|;
    }
  }

  /// The end of the announcements has been handled.
  function EndHandled(x: Endpoint, packet: Bytes): Endpoint
    requires x.state.Registration?
  {
    x.(state := x.state.(receivedLast := true), rx := HandledNow(x.rx, MANAGEMENT_LANE, packet))
  }

  lemma RegisterEnd(x: Endpoint, prov: Provider, packet: Bytes, rest: Bytes)
    requires x.state.Registration? && DecodeStr(packet, MAX_NAME) == Got(Some([]), rest)
    ensures Register(x, prov, packet) == Res(Converted(EndHandled(x, packet)), Fine)
  {
    hide DecodeStr, Decode, Converted;
  }

  lemma RegisterReads(e: Env, y: Endpoint, x: Endpoint, packet: Bytes)
    requires PeerOk(e, y) && TableOk(e.mine, y, x) && x.state.Registration? && NextAnnouncement(y, x, packet)
    ensures var k, r := |Lookup(x.rx.handled, MANAGEMENT_LANE)|, Register(x, e.mine, packet);
            !r.out.Crash? &&
            if k < |y.tx.listing| then (if r.out.Fine? then Entered(e, y, x, r.x, packet) else r.x == x)
            else r == Res(Converted(EndHandled(x, packet)), Fine)
  {
    hide PeerOk, TableOk, Converted, DecodeStr, Decode, Encode, ListingOk, RegistrationPayload, EncodeStr, Register,
         Entered;
    var k := |Lookup(x.rx.handled, MANAGEMENT_LANE)|;
    AnnouncementAt(e, y, k);
    EnvParts(e, y);
    if k < |y.tx.listing| {
      AnnouncementReads(y.tx.listing[k].name, k);
      RegisterEntry(e, y, x, packet, Encode(k));
    } else {
      FinalReads();
      RegisterEnd(x, e.mine, packet, []);
    }
  }

  lemma EnvParts(e: Env, y: Endpoint)
    requires PeerOk(e, y)
    ensures e.mine.WellFormed() && e.theirs.WellFormed() && Matching(e.mine, e.theirs)
  {
    hide SelfInv;
  }

  // ---- One more entry ----

  lemma TableStep(e: Env, y: Endpoint, x: Endpoint, x': Endpoint, packet: Bytes)
    requires TableOk(e.mine, y, x) && x.state.Registration? && Entered(e, y, x, x', packet)
    ensures TableOk(e.mine, y, x')
    ensures var was := x.rx.notLocal.localToGlobal;
            x'.rx.notLocal.localToGlobal == was + [e.mine.names[y.tx.listing[|was|].name]]
  {
    hide Appended, Renamed;
    var listing, k := y.tx.listing, |Lookup(x.rx.handled, MANAGEMENT_LANE)|;
    var g := e.mine.names[listing[k].name];
    assert Lookup(x'.rx.handled, MANAGEMENT_LANE) == Lookup(x.rx.handled, MANAGEMENT_LANE) + [packet];
    assert listing[..k + 1] == listing[..k] + [listing[k]];
    assert Renamed(listing[..k + 1], e.mine) == Renamed(listing[..k], e.mine) + [Entry(listing[k].name, g)];
    AppendedSnoc(Renamed(listing[..k], e.mine), Entry(listing[k].name, g));
  }

  /// Logging on one lane does not show on another.
  lemma LogElsewhere<T>(m: map<Lane, seq<T>>, lane: Lane, v: T)
    ensures forall l :: l != lane ==> Lookup(Log(m, lane, v), l) == Lookup(m, l)
    ensures Lookup(Log(m, lane, v), lane) == Lookup(m, lane) + [v]
  {
  }

  /// Delivering the next payload of a lane keeps its prefix, if its order has been noted.
  lemma HandledLane(y: Endpoint, x: Endpoint, x': Endpoint, lane: Lane, reliable: bool, packet: Bytes)
    requires LaneOk(y, x, lane, reliable) && IsPrefix(x.rx.accepted, x'.rx.accepted)
    requires Lookup(x'.rx.handled, lane) == Lookup(x.rx.handled, lane) + [packet]
    requires Lookup(x'.rx.pushed, lane) == Lookup(x.rx.pushed, lane)
    requires x'.rx.orderers.Has(lane) ==> x'.rx.orderers.At(lane).None?
    requires Clean(y.tx, lane) ==>
               |Lookup(x.rx.handled, lane)| < |Lookup(y.tx.submitted, lane)|
               && packet == Lookup(y.tx.submitted, lane)[|Lookup(x.rx.handled, lane)|]
               && (reliable ==> |Lookup(x.rx.handled, lane)| in Lookup(x.rx.pushed, lane))
    ensures LaneOk(y, x', lane, reliable)
  {
    AccKeysGrow(x.rx, x'.rx);
    if Clean(y.tx, lane) {
      var handled, made := Lookup(x.rx.handled, lane), Lookup(y.tx.submitted, lane);
      assert made[..|handled| + 1] == made[..|handled|] + [made[|handled|]];
      if reliable {
        forall o | o in Lookup(x'.rx.pushed, lane)
          ensures OrderAccepted(y, x', lane, o)
        {
          assert OrderAccepted(y, x, lane, o);
        }
      }
    }
  }

  lemma NewLane(y: Endpoint, x: Endpoint, lane: Lane, reliable: bool, capacity: nat)
    requires Lookup(x.rx.handled, lane) == [] && Lookup(x.rx.pushed, lane) == []
    requires x.rx.orderers.Has(lane) ==> x.rx.orderers.At(lane) == Some(O.NewWindow(capacity))
    ensures LaneOk(y, x, lane, reliable)
  {
  }

  lemma UntouchedLane(y: Endpoint, x: Endpoint, x': Endpoint, lane: Lane, reliable: bool)
    requires LaneOk(y, x, lane, reliable) && IsPrefix(x.rx.accepted, x'.rx.accepted)
    requires Lookup(x'.rx.handled, lane) == Lookup(x.rx.handled, lane)
    requires Lookup(x'.rx.pushed, lane) == Lookup(x.rx.pushed, lane)
    requires x'.rx.orderers.Has(lane) ==>
               || x'.rx.orderers.At(lane).None?
               || (x.rx.orderers.Has(lane) && x'.rx.orderers.At(lane) == x.rx.orderers.At(lane))
    ensures LaneOk(y, x', lane, reliable)
  {
    AccKeysGrow(x.rx, x'.rx);
    if Clean(y.tx, lane) && reliable {
      forall o | o in Lookup(x'.rx.pushed, lane)
        ensures OrderAccepted(y, x', lane, o)
      {
        assert OrderAccepted(y, x, lane, o);
      }
    }
  }

  lemma LanesStep(e: Env, y: Endpoint, x: Endpoint, x': Endpoint, packet: Bytes)
    requires LanesOk(e.mine, y, x) && QuietOk(x) && x.state.Registration?
    requires NextAnnouncement(y, x, packet) && Entered(e, y, x, x', packet)
    requires |Lookup(x.rx.handled, MANAGEMENT_LANE)| == |x.rx.notLocal.localToGlobal|
    requires exists g :: x'.rx.notLocal.localToGlobal == x.rx.notLocal.localToGlobal + [g]
    ensures LanesOk(e.mine, y, x')
  {
    hide LaneOk;
    LogElsewhere(x.rx.handled, MANAGEMENT_LANE, packet);
    HandledLane(y, x, x', MANAGEMENT_LANE, true, packet);
    var n := |x.rx.notLocal.localToGlobal|;
    forall c: nat | Behind(e.mine, x', c).Some? && Behind(e.mine, x', c).value.IsOrdered()
      ensures LaneOk(y, x', Lane(Tra, c), Behind(e.mine, x', c).value.IsReliable())
    {
      var lane := Lane(Tra, c);
      if c < n {
        assert Behind(e.mine, x', c) == Behind(e.mine, x, c);
        UntouchedLane(y, x, x', lane, Behind(e.mine, x, c).value.IsReliable());
      } else {
        NewLane(y, x', lane, Behind(e.mine, x', c).value.IsReliable(), Behind(e.mine, x', c).value.capacity.value);
      }
    }
  }

  lemma QuietBuffers(x: Endpoint)
    requires BuffersOk(x) && QuietOk(x) && x.state.Registration?
    ensures forall g :: g in x.rx.buffers ==> x.rx.buffers[g] == []
  {
    forall g | g in x.rx.buffers
      ensures x.rx.buffers[g] == []
    {
      if HasLane(x, g) {
        var c :| 0 <= c < |x.rx.notLocal.localToGlobal| && x.rx.notLocal.localToGlobal[c] == g;
        assert Lookup(x.rx.handled, Lane(Tra, c)) == BufferOf(x.rx.buffers, g);
      }
    }
  }

  lemma BuffersStep(x: Endpoint, x': Endpoint, g: nat)
    requires BuffersOk(x) && QuietOk(x) && x.state.Registration? && x'.state == x.state
    requires x'.rx.notLocal.localToGlobal == x.rx.notLocal.localToGlobal + [g] && x'.rx.buffers == x.rx.buffers
    requires forall lane: Lane :: lane.stage.Tra? ==> Lookup(x'.rx.handled, lane) == Lookup(x.rx.handled, lane)
    ensures BuffersOk(x')
  {
    QuietBuffers(x);
    forall c | 0 <= c < |x'.rx.notLocal.localToGlobal|
      ensures Lookup(x'.rx.handled, Lane(Tra, c)) == BufferOf(x'.rx.buffers, x'.rx.notLocal.localToGlobal[c])
    {
      assert Lookup(x'.rx.handled, Lane(Tra, c)) == [];
    }
  }

  lemma RoutedQuiet(e: Env, y: Endpoint, x: Endpoint)
    requires QuietOk(x) && x.state.Registration?
    ensures RoutedOk(e.mine, y, x)
  {
    forall c | Behind(e.mine, x, c).Some?
      ensures RoutedOn(y, x, Lane(Tra, c), Behind(e.mine, x, c).value)
    {
      assert Lookup(x.rx.handled, Lane(Tra, c)) == [];
    }
  }

  lemma QuietStep(e: Env, y: Endpoint, x: Endpoint, x': Endpoint, packet: Bytes)
    requires QuietOk(x) && x.state.Registration? && Entered(e, y, x, x', packet)
    requires forall lane: Lane :: lane.stage.Tra? ==> Lookup(x'.rx.handled, lane) == Lookup(x.rx.handled, lane)
    ensures QuietOk(x')
  {
    var k := |Lookup(x.rx.handled, MANAGEMENT_LANE)|;
    forall lane: Lane | x'.rx.orderers.Has(lane) && x'.rx.orderers.At(lane).Some?
      ensures x'.rx.orderers.At(lane).value.Valid()
      ensures lane.stage.Tra? ==> x'.rx.orderers.At(lane).value.pending == map[]
    {
      if lane != Lane(Tra, k) {
        assert x.rx.orderers.Has(lane) && x'.rx.orderers.At(lane) == x.rx.orderers.At(lane);
        assert WindowOf(x, lane) == x.rx.orderers.At(lane);
      }
    }
  }

  lemma EnteredGood(e: Env, y: Endpoint, x: Endpoint, x': Endpoint, packet: Bytes)
    requires UpInv(e.mine, x) && RecvInv(e.mine, y, x) && x.state.Registration?
    requires NextAnnouncement(y, x, packet) && Entered(e, y, x, x', packet)
    ensures Good(e, y, x') && Extends(x, x')
  {
    hide UpInv, AcceptOk, LanesOk, RoutedOk, BuffersOk, JoiningOk, TableOk, HandshakeOk, ReleasedOk, Extends,
         NextAnnouncement;
    UpSame(e, x, x');
    AcceptSame(y, x, x');
    TableLength(e, y, x);
    TableStep(e, y, x, x', packet);
    LogElsewhere(x.rx.handled, MANAGEMENT_LANE, packet);
    LanesStep(e, y, x, x', packet);
    BuffersStep(x, x', e.mine.names[y.tx.listing[|x.rx.notLocal.localToGlobal|].name]);
    QuietStep(e, y, x, x', packet);
    RoutedQuiet(e, y, x');
    SameOthers(y, x, x');
  }

  lemma SameOthers(y: Endpoint, x: Endpoint, x': Endpoint)
    requires x'.rx.joiner == x.rx.joiner && x'.tx == x.tx
    requires x'.state == x.state
             || (x'.state.Registration? && x.state.Registration? && x'.state.lastKey == x.state.lastKey)
    ensures JoiningOk(y, x) ==> JoiningOk(y, x')
    ensures ReleasedOk(y, x) ==> ReleasedOk(y, x')
    ensures HandshakeOk(y, x) ==> HandshakeOk(y, x')
  {
  }

  // ---- The end of the announcements ----

  ghost predicate Ended(y: Endpoint, x: Endpoint, x': Endpoint, packet: Bytes) {
    && |Lookup(x.rx.handled, MANAGEMENT_LANE)| == |y.tx.listing|
    && x.state.Registration?
    && x' == EndHandled(x, packet)
  }

  lemma EndedTable(e: Env, y: Endpoint, x: Endpoint, x': Endpoint, packet: Bytes)
    requires TableOk(e.mine, y, x) && Ended(y, x, x', packet)
    ensures TableOk(e.mine, y, x')
  {
    assert Lookup(x'.rx.handled, MANAGEMENT_LANE) == Lookup(x.rx.handled, MANAGEMENT_LANE) + [packet];
  }

  lemma EndedLanes(e: Env, y: Endpoint, x: Endpoint, x': Endpoint, packet: Bytes)
    requires LanesOk(e.mine, y, x) && NextAnnouncement(y, x, packet) && Ended(y, x, x', packet)
    ensures LanesOk(e.mine, y, x')
  {
    hide LaneOk;
    LogElsewhere(x.rx.handled, MANAGEMENT_LANE, packet);
    HandledLane(y, x, x', MANAGEMENT_LANE, true, packet);
    forall c | Behind(e.mine, x', c).Some? && Behind(e.mine, x', c).value.IsOrdered()
      ensures LaneOk(y, x', Lane(Tra, c), Behind(e.mine, x', c).value.IsReliable())
    {
      assert Behind(e.mine, x', c) == Behind(e.mine, x, c);
      UntouchedLane(y, x, x', Lane(Tra, c), Behind(e.mine, x, c).value.IsReliable());
    }
  }

  lemma EndedBuffers(x: Endpoint, x': Endpoint, packet: Bytes)
    requires BuffersOk(x) && x'.rx == HandledNow(x.rx, MANAGEMENT_LANE, packet)
    ensures BuffersOk(x')
  {
    LogElsewhere(x.rx.handled, MANAGEMENT_LANE, packet);
    forall g | g in x'.rx.buffers && x'.rx.buffers[g] != []
      ensures HasLane(x', g)
    {
      assert HasLane(x, g);
    }
  }

  lemma EndedGood(e: Env, y: Endpoint, x: Endpoint, x': Endpoint, packet: Bytes)
    requires UpInv(e.mine, x) && RecvInv(e.mine, y, x)
    requires NextAnnouncement(y, x, packet) && Ended(y, x, x', packet)
    ensures Good(e, y, x') && Extends(x, x')
  {
    hide UpInv, AcceptOk, LanesOk, RoutedOk, BuffersOk, JoiningOk, TableOk, HandshakeOk, ReleasedOk, Extends,
         NextAnnouncement;
    UpSame(e, x, x');
    AcceptSame(y, x, x');
    EndedTable(e, y, x, x', packet);
    EndedLanes(e, y, x, x', packet);
    LogElsewhere(x.rx.handled, MANAGEMENT_LANE, packet);
    EndedBuffers(x, x', packet);
    RoutedQuiet(e, y, x');
    SameOthers(y, x, x');
  }

  /// One announcement, whatever its outcome.
  lemma RegisterGood(e: Env, y: Endpoint, x: Endpoint, packet: Bytes)
    requires PeerOk(e, y) && UpInv(e.mine, x) && RecvInv(e.mine, y, x) && TableOk(e.mine, y, x)
    requires x.state.Registration? && NextAnnouncement(y, x, packet)
    ensures var r := Register(x, e.mine, packet);
            && Good(e, y, r.x) && Extends(x, r.x) && !r.out.Crash?
            && (r.out.Fine? ==>
                  && Lookup(r.x.rx.handled, MANAGEMENT_LANE) == Lookup(x.rx.handled, MANAGEMENT_LANE) + [packet]
                  && r.x.rx.pushed == x.rx.pushed && r.x.rx.orderers.management.None?)
  {
    hide PeerOk, UpInv, RecvInv, TableOk, NextAnnouncement, Extends, Register, Converted, Entered;
    RegisterReads(e, y, x, packet);
    AnnouncementBound(e, y, x, packet);
    ManagementFree(y, x, packet);
    var k, r := |Lookup(x.rx.handled, MANAGEMENT_LANE)|, Register(x, e.mine, packet);
    if k < |y.tx.listing| {
      if r.out.Fine? {
        EnteredGood(e, y, x, r.x, packet);
        EnteredShows(e, y, x, r.x, packet);
      } else {
        Unchanged(e, y, x);
      }
    } else {
      var x' := EndHandled(x, packet);
      LogElsewhere(x.rx.handled, MANAGEMENT_LANE, packet);
      EndedGood(e, y, x, x', packet);
      ConvertedGood(e, y, x');
      ExtendsTrans(x, x', Converted(x'));
    }
  }

  lemma EnteredShows(e: Env, y: Endpoint, x: Endpoint, x': Endpoint, packet: Bytes)
    requires Entered(e, y, x, x', packet)
    ensures Lookup(x'.rx.handled, MANAGEMENT_LANE) == Lookup(x.rx.handled, MANAGEMENT_LANE) + [packet]
    ensures x'.rx.pushed == x.rx.pushed && x'.rx.orderers.management == x.rx.orderers.management
  {
    LogElsewhere(x.rx.handled, MANAGEMENT_LANE, packet);
  }

  lemma Unchanged(e: Env, y: Endpoint, x: Endpoint)
    requires UpInv(e.mine, x) && RecvInv(e.mine, y, x)
    ensures Good(e, y, x) && Extends(x, x)
  {
    hide UpInv, RecvInv;
  }

  lemma AnnouncementBound(e: Env, y: Endpoint, x: Endpoint, packet: Bytes)
    requires PeerOk(e, y) && NextAnnouncement(y, x, packet)
    ensures |Lookup(x.rx.handled, MANAGEMENT_LANE)| <= |y.tx.listing|
  {
    AnnouncementAt(e, y, |Lookup(x.rx.handled, MANAGEMENT_LANE)|);
  }

  lemma ManagementFree(y: Endpoint, x: Endpoint, packet: Bytes)
    requires NextAnnouncement(y, x, packet)
    ensures x.rx.orderers.management.None?
  {
  }
}
