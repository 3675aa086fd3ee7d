/**
 What the arrival of an announcement achieves in registration: exactly the announcements that have now
 come without a gap are entered, and the last of them ends the peer's part of the stage.
 */
module Enrolling {
  import opened Base
  import opened Framing
  import opened Channels
  import opened Endpoints
  import opened Sending
  import opened Counting
  import opened Invariants
  import opened Receiving
  import opened Registering
  import opened Delivering
  import opened Arriving
  import opened Systems
  import opened Turns
  import opened Possibility
  import opened Arrivals
  import O = Ordering

  /// The receiver has a channel for every name that the peer announces.
  ghost predicate AllKnown(e: Env, y: Endpoint) {
    forall i :: 0 <= i < |y.tx.listing| ==> y.tx.listing[i].name in e.mine.names
  }

  function Entries(x: Endpoint): nat {
    |Lookup(x.rx.handled, MANAGEMENT_LANE)|
  }

  /// The stage after `n` announcements of a peer with this many channels, the end being one more.
  function StageAfter(s: State, n: nat, channels: nat): State {
    if s.Transfer? || n != channels + 1 then s
    else if s.lastKey.None? then Transfer
    else Registration(true, s.lastKey)
  }

  /// From `x` to `x'` the next `k` announcements were entered; the end, if it was among them, had its
  /// effect on the stage, with the cleanup if that meant leaving registration.
  ghost predicate Enrolled(x: Endpoint, x': Endpoint, k: nat, channels: nat) {
    && Entries(x') == Entries(x) + k && x'.tx.sent == x.tx.sent && x'.tx.wire == x.tx.wire
    && x'.state == (if k == 0 then x.state else StageAfter(x.state, Entries(x'), channels))
    && if x.state.Registration? && x'.state.Transfer? then
         x'.rx.dup == {} && x'.ack == [] && x'.tx.resender.slots.values == []
       else
         x'.rx.dup == x.rx.dup && x'.ack == x.ack && x'.tx.resender == x.tx.resender
  }

  lemma EnrolledNone(x: Endpoint, channels: nat)
    ensures Enrolled(x, x, 0, channels)
  {
  }

  /// One announcement in its turn.
  lemma EnrolledOne(e: Env, y: Endpoint, x: Endpoint, w: O.Window)
    requires PeerOk(e, y) && AllKnown(e, y) && w.start in w.pending
    requires Draining(e, y, x, MANAGEMENT_LANE, MANAGEMENT_ID_REGISTRATION, MANAGEMENT_CHANNEL, w)
    ensures x.state.Registration? && w.start <= |y.tx.listing| && !x.state.receivedLast
    ensures var r := HandleOne(x, e.mine, MANAGEMENT_LANE, MANAGEMENT_ID_REGISTRATION, w.pending[w.start]);
            r.out.Fine? && Enrolled(x, r.x, 1, |y.tx.listing|)
  {
    hide PeerOk, Good, Register, Entered, Clean, InFlight, WindowRouted, O.Window.Valid, TableOk, Converted, Extends;
    CleanRegistration(e, y, MANAGEMENT_LANE);
    StillRegistering(e, y, x, w);
    NextIn(e, y, x, w);
    var packet := w.pending[w.start];
    GoodTable(e, y, x);
    RegisterReads(e, y, x, packet);
    if Entries(x) < |y.tx.listing| {
      KnownFine(e, y, x, packet);
      EntersOne(e, y, x, Register(x, e.mine, packet).x, packet);
    } else {
      EndsHere(x, packet, |y.tx.listing|);
    }
  }

  lemma NextIn(e: Env, y: Endpoint, x: Endpoint, w: O.Window)
    requires PeerOk(e, y) && Good(e, y, x) && InFlight(y, x, MANAGEMENT_LANE, true, w) && w.start in w.pending
    requires x.rx.orderers.Has(MANAGEMENT_LANE) && x.rx.orderers.At(MANAGEMENT_LANE).None? && x.state.Registration?
    ensures NextAnnouncement(y, x, w.pending[w.start]) && w.start == Entries(x) <= |y.tx.listing|
    ensures !x.state.receivedLast
  {
    hide PeerOk, UpInv, AcceptOk, LanesOk, RoutedOk, BuffersOk, JoiningOk, HandshakeOk, ReleasedOk, QuietOk;
    AnnouncementAt(e, y, w.start);
  }

  lemma EntersOne(e: Env, y: Endpoint, x: Endpoint, x': Endpoint, packet: Bytes)
    requires Entered(e, y, x, x', packet) && x.state.Registration?
    ensures Enrolled(x, x', 1, |y.tx.listing|)
  {
  }

  lemma EndsHere(x: Endpoint, packet: Bytes, channels: nat)
    requires x.state.Registration? && Entries(x) == channels
    ensures Enrolled(x, Converted(EndHandled(x, packet)), 1, channels)
  {
  }

  lemma EnrolledStep(x: Endpoint, a: Endpoint, x': Endpoint, k: nat, channels: nat)
    requires Enrolled(x, a, 1, channels) && Enrolled(a, x', k, channels) && x.state.Registration?
    requires a.state.Transfer? ==> k == 0
    requires Entries(a) == channels + 1 ==> k == 0
    ensures Enrolled(x, x', k + 1, channels)
  {
  }

  lemma {:induction false} DrainEnrolls(e: Env, y: Endpoint, x: Endpoint, w: O.Window) returns (k: nat)
    requires PeerOk(e, y) && AllKnown(e, y)
    requires Draining(e, y, x, MANAGEMENT_LANE, MANAGEMENT_ID_REGISTRATION, MANAGEMENT_CHANNEL, w)
    ensures var d := O.Drain(w, Handler(e.mine, MANAGEMENT_LANE, MANAGEMENT_ID_REGISTRATION), Res(x, Fine));
            && d.fine && d.state.out.Fine? && FrontRun(w, k) && Enrolled(x, d.state.x, k, |y.tx.listing|)
            && d.state.x.rx.orderers.Has(MANAGEMENT_LANE)
    ensures x.state.Transfer? || w.start > |y.tx.listing| ==> k == 0
    decreases |w.pending|
  {
    hide PeerOk, HandleOne, Draining, LaneReady, Enrolled, Good, O.Window.Valid, O.Drain, Handler, FrontRun, Extends,
         AllKnown;
    DrainOne(w, e.mine, MANAGEMENT_LANE, MANAGEMENT_ID_REGISTRATION, x);
    if w.start in w.pending {
      var r := HandleOne(x, e.mine, MANAGEMENT_LANE, MANAGEMENT_ID_REGISTRATION, w.pending[w.start]);
      EnrolledOne(e, y, x, w);
      DrainStep(e, y, x, MANAGEMENT_LANE, MANAGEMENT_ID_REGISTRATION, MANAGEMENT_CHANNEL, w);
      DrainingWindow(e, y, x, w);
      O.Smaller(w);
      var n := DrainEnrolls(e, y, r.x, w.Advance());
      DrainingStart(e, y, r.x, w.Advance());
      FrontStep(w, n);
      EnrolledStep(x, r.x, O.Drain(w.Advance(), Handler(e.mine, MANAGEMENT_LANE, MANAGEMENT_ID_REGISTRATION),
                                   Res(r.x, Fine)).state.x, n, |y.tx.listing|);
      k := n + 1;
    } else {
      DrainingWindow(e, y, x, w);
      NothingWaits(w);
      EnrolledNone(x, |y.tx.listing|);
      k := 0;
    }
  }

  lemma DrainingWindow(e: Env, y: Endpoint, x: Endpoint, w: O.Window)
    requires Draining(e, y, x, MANAGEMENT_LANE, MANAGEMENT_ID_REGISTRATION, MANAGEMENT_CHANNEL, w)
    ensures w.Valid() && x.rx.orderers.Has(MANAGEMENT_LANE)
  {
    hide Good, O.Window.Valid, InFlight, WindowRouted;
  }

  lemma DrainingStart(e: Env, y: Endpoint, x: Endpoint, w: O.Window)
    requires PeerOk(e, y) && Draining(e, y, x, MANAGEMENT_LANE, MANAGEMENT_ID_REGISTRATION, MANAGEMENT_CHANNEL, w)
    ensures w.start == Entries(x)
  {
    hide PeerOk, Good, O.Window.Valid, WindowRouted;
    CleanRegistration(e, y, MANAGEMENT_LANE);
  }

  /// What an accepted announcement with order `o` does: everything that now stands at the front of the
  /// orderer is entered; or the order is refused and the orderer lost, or it is gone, a panic.
  ghost predicate Announced(x: Endpoint, r: Res, o: nat, payload: Bytes, channels: nat) {
    match WindowOf(x, MANAGEMENT_LANE)
    case None => r == Res(x, Crash)
    case Some(w) =>
      if w.Bursts(o) || w.Refuses(o) then
        && r.out == (if w.Bursts(o) then Crash else Fail(OrdererFull))
        && WindowOf(r.x, MANAGEMENT_LANE).None? && Enrolled(x, r.x, 0, channels)
      else
        && r.out.Fine? && WindowOf(r.x, MANAGEMENT_LANE).Some?
        && exists k :: FrontRun(w.Push(o, payload).value, k) && Enrolled(x, r.x, k, channels)
  }

  lemma TakenEnrolled(x: Endpoint, o: nat, x': Endpoint, w: O.Window, k: nat, channels: nat)
    requires Enrolled(Taken(x, MANAGEMENT_LANE, o), x', k, channels)
    ensures Enrolled(x, WithOrderer(x', MANAGEMENT_LANE, Some(w)), k, channels)
  {
  }

  lemma DeliverAnnounces(e: Env, y: Endpoint, x: Endpoint, o: nat, payload: Bytes)
    requires PeerOk(e, y) && Good(e, y, x) && AllKnown(e, y) && x.state.Registration?
    requires LaneReady(e.mine, x, MANAGEMENT_LANE, MANAGEMENT_ID_REGISTRATION, MANAGEMENT_CHANNEL)
    requires Genuine(y, x, MANAGEMENT_LANE, MANAGEMENT_CHANNEL, Some(o), payload) && o < U32
    ensures Announced(x, Deliver(x, e.mine, MANAGEMENT_LANE, MANAGEMENT_ID_REGISTRATION, Some(o), payload), o, payload,
                      |y.tx.listing|)
  {
    hide PeerOk, Good, Genuine, O.Drain, Handler, LaneReady, Draining, FrontRun, AllKnown, Enrolled;
    if WindowOf(x, MANAGEMENT_LANE).Some? {
      var w, t := WindowOf(x, MANAGEMENT_LANE).value, Taken(x, MANAGEMENT_LANE, o);
      if w.Refuses(o) || w.Bursts(o) {
        TakenNone(x, o, |y.tx.listing|);
      } else {
        var w' := w.Push(o, payload).value;
        TakenDraining(e, y, x, MANAGEMENT_LANE, MANAGEMENT_ID_REGISTRATION, MANAGEMENT_CHANNEL, o, payload, w);
        var k := DrainEnrolls(e, y, t, w');
        var d := O.Drain(w', Handler(e.mine, MANAGEMENT_LANE, MANAGEMENT_ID_REGISTRATION), Res(t, Fine));
        TakenEnrolled(x, o, d.state.x, d.window, k, |y.tx.listing|);
      }
    }
  }

  lemma TakenNone(x: Endpoint, o: nat, channels: nat)
    ensures Enrolled(x, Taken(x, MANAGEMENT_LANE, o), 0, channels)
  {
  }

  /// The arrival of an announcement that is accepted.
  lemma AnnouncementArrives(e: Env, y: Endpoint, x: Endpoint, p: Packet)
    requires PeerOk(e, y) && Good(e, y, x) && AllKnown(e, y) && p in y.tx.sent && p.lane == MANAGEMENT_LANE
    requires x.state.Registration? && CanAccept(x, p.key) && !Accept(x, p.key).x.tx.wrapped
    ensures p.order.Some?
    ensures Announced(Accept(x, p.key).x, Receive(x, e.mine, Frame(p)), p.order.value, p.payload, |y.tx.listing|)
  {
    hide PeerOk, Good, Frame, FrameReads, Receive, Taking, Extends, Speculate, ReceiveBody, DecodePrimary, Accept,
         CanAccept, Genuine, LaneReady, AllKnown, Announced, Deliver, RecvInv, BareOk, KeysDistinct, OrdersDistinct,
         AccKeys;
    ArrivesAs(e, y, x, p);
    var g, ch := TakenOn(e, y, x, p);
    TakingParts(e, y, x, p, g, ch);
    ManagementTaken(e, y, x, p, g, ch);
    AcceptGood(e, y, x, p);
    AcceptsIt(e, y, x, p);
    var a := Accept(x, p.key).x;
    WholeGenuine(e, y, x, a, p, g, ch);
    ReadyStill(e, x, a, p.lane, g, ch);
    WholeBody(x, e.mine, p, g, ch);
    WholeIs(x, e.mine, p, g);
    DeliverAnnounces(e, y, a, p.order.value, p.payload);
  }

  lemma ManagementTaken(e: Env, y: Endpoint, x: Endpoint, p: Packet, g: nat, ch: Channel)
    requires Taking(e, y, x, p, g, ch) && p.lane == MANAGEMENT_LANE
    ensures ch == MANAGEMENT_CHANNEL && g == MANAGEMENT_ID_REGISTRATION && p.seg.None? && p.order.Some?
    ensures p.order.value < U32
  {
    hide PeerOk, Good;
    PacketKind(e, y, p);
    NeverSegmented(e, y, p);
  }

  lemma NeverSegmented(e: Env, y: Endpoint, p: Packet)
    requires PeerOk(e, y) && p in y.tx.sent && p.lane.stage.Reg?
    ensures p.seg.None?
  {
    PeerParts(e, y, p);
  }

  /// Over all runs: an announcement that is accepted enters exactly those that now stand without a gap,
  /// each under the receiver's own number for its name, and the last of them may end registration.
  lemma AnnouncementStep(c: Config, run: seq<Sys>, events: seq<Event>, i: nat, side: Side, p: Packet)
    requires Arrival(c, run, events, i, side, p) && p.lane == MANAGEMENT_LANE
    requires run[i].At(side).x.state.Registration? && CanAccept(run[i].At(side).x, p.key)
    requires AllKnown(c.EnvOf(side), run[i].At(side.Other()).x)
    ensures var x, y, r := run[i].At(side).x, run[i].At(side.Other()).x,
                Receive(run[i].At(side).x, c.At(side), Frame(p));
            && i + 1 < |run| && run[i + 1].At(side) == Node(if r.out.Crash? then Panicked else Up, r.x)
            && p.order.Some?
            && Announced(Accept(x, p.key).x, r, p.order.value, p.payload, |y.tx.listing|)
  {
    hide Arrival, PeerOk, Good, AcceptOk, Receive, Frame, CanAccept, Accept, Announced, AllKnown;
    ArrivalSides(c, run, events, i, side, p);
    var e, x, y := c.EnvOf(side), run[i].At(side).x, run[i].At(side.Other()).x;
    AcceptUnwrapped(e, y, x, p);
    AnnouncementArrives(e, y, x, p);
  }
}
