/** What a connection guarantees in every reachable state, in the terms of the two applications. */
module Guarantees {
  import opened Base
  import opened Framing
  import opened Channels
  import opened Endpoints
  import opened Sending
  import opened Acknowledging
  import opened Counting
  import opened Invariants
  import opened Receiving
  import opened Delivering
  import opened Opening
  import opened Systems

  /// No 32-bit counter of either side has started over.
  ghost predicate Unwrapped(s: Sys) {
    !s.left.x.tx.wrapped && !s.right.x.tx.wrapped
  }

  /// Neither side has sent 2^32 packets or messages, or 2^32 payloads on one channel.
  ghost predicate AllFew(s: Sys) {
    Few(s.left.x.tx) && Few(s.right.x.tx)
  }

  /// Everything the application was given on a channel or still has to take.
  function Inbox(prov: Provider, x: Endpoint, name: Bytes): seq<Bytes>
    requires name in prov.names
  {
    BufferOf(x.rx.buffers, prov.names[name])
  }

  /// Everything submitted on a channel in the transfer stage.
  function Outbox(prov: Provider, x: Endpoint, name: Bytes): seq<Bytes>
    requires name in prov.names
  {
    var id := x.local.LocalId(Tra, prov.names[name]);
    if id.Some? then Lookup(x.tx.submitted, Lane(Tra, id.value)) else []
  }

  /// Every payload goes out in one packet.
  ghost predicate Short(payloads: seq<Bytes>) {
    forall q :: q in payloads ==> |q| <= MAX_NON_SEGMENTED_PAYLOAD
  }

  /// A peer that is sound, and a receiver that has opened its connection or received nothing.
  ghost predicate Facing(e: Env, y: Endpoint, x: Endpoint) {
    PeerOk(e, y) && RecvInv(e.mine, y, x) && (UpInv(e.mine, x) || Untouched(x))
  }

  lemma SideFacing(c: Config, s: Sys, side: Side)
    requires c.Ok() && SysInv(c, s) && Unwrapped(s)
    ensures Facing(c.EnvOf(side), s.At(side.Other()).x, s.At(side).x)
    ensures Sound(c, s)
  {
    hide SelfInv, UpInv, RecvInv, Untouched, EnvOk;
    EnvHolds(c, side);
  }

  lemma NotWrapped(tx: Tx)
    requires Counted(tx) && Few(tx)
    ensures !tx.wrapped
  {
  }

  lemma Reached(c: Config, run: seq<Sys>, events: seq<Event>, i: nat, side: Side)
    requires c.Ok() && IsRun(c, run, events) && i < |run| && Unwrapped(run[i])
    ensures Facing(c.EnvOf(side), run[i].At(side.Other()).x, run[i].At(side).x)
    ensures Sound(c, run[i])
  {
    hide IsRun, SysInv, Facing, Unwrapped, Sound;
    RunSound(c, run, events, i);
    SideFacing(c, run[i], side);
  }

  // ---- Names and lanes ----

  lemma UntouchedEmpty(e: Env, x: Endpoint, name: Bytes)
    requires Untouched(x) && name in e.mine.names
    ensures Inbox(e.mine, x, name) == []
  {
  }

  /// In transfer, a lane is the same name on both sides, and each side finds it by its own id.
  lemma NameOfLane(e: Env, y: Endpoint, x: Endpoint, c: nat)
    requires PeerOk(e, y) && Good(e, y, x) && x.state.Transfer? && c < |x.rx.notLocal.localToGlobal|
    ensures c < |y.tx.listing| == |x.rx.notLocal.localToGlobal| == |y.local.localToGlobal| < NULL_ID
    ensures var name := y.tx.listing[c].name;
            && name in e.mine.names && name in e.theirs.names
            && x.rx.notLocal.localToGlobal[c] == e.mine.names[name] && y.local.localToGlobal[c] == e.theirs.names[name]
            && Behind(e.mine, x, c) == Some(e.mine.channels[e.mine.names[name]])
            && y.local.LocalId(Tra, e.theirs.names[name]) == Some(c)
  {
    hide PeerOk, Good, RecvInv, UpInv;
    SameEntry(e, y, x, c);
    Complete(e, y, x);
    ListingFits(e, y);
    EntryOf(e, y.tx.listing, c);
    AppendedShape(y.tx.listing);
    hide DistinctEntries, Appended, ListingOk, Known;
    assert y.local.globalToLocal[y.local.localToGlobal[c]] == c;
  }

  lemma ListingFits(e: Env, y: Endpoint)
    requires PeerOk(e, y)
    ensures ListingOk(e.theirs, y.tx.listing) && DistinctEntries(y.tx.listing) && |y.tx.listing| < NULL_ID
    ensures e.mine.WellFormed() && e.theirs.WellFormed()
  {
    hide TxInv, BufferOk, AnnouncedAll, Appended, Matching;
  }

  lemma Complete(e: Env, y: Endpoint, x: Endpoint)
    requires PeerOk(e, y) && Good(e, y, x) && x.state.Transfer?
    ensures Known(y.tx.listing, e.mine) && x.rx.notLocal == Appended(Renamed(y.tx.listing, e.mine))
    ensures y.local == Appended(y.tx.listing)
    ensures |Lookup(x.rx.handled, MANAGEMENT_LANE)| == |y.tx.listing| + 1 == |Lookup(y.tx.submitted, MANAGEMENT_LANE)|
  {
    hide PeerOk, UpInv, AcceptOk, LanesOk, QuietOk, BuffersOk, RoutedOk, JoiningOk, ReleasedOk, HandshakeOk;
    Agreement(e, y, x);
  }

  /// What a non-empty buffer shows: the receiver is in transfer and the buffer belongs to a lane.
  lemma InboxLane(e: Env, y: Endpoint, x: Endpoint, name: Bytes) returns (c: nat)
    requires PeerOk(e, y) && Good(e, y, x) && name in e.mine.names && Inbox(e.mine, x, name) != []
    ensures x.state.Transfer? && c < |x.rx.notLocal.localToGlobal|
    ensures x.rx.notLocal.localToGlobal[c] == e.mine.names[name]
    ensures Lookup(x.rx.handled, Lane(Tra, c)) == Inbox(e.mine, x, name)
  {
    hide PeerOk, UpInv, AcceptOk, TableOk, LanesOk, RoutedOk, JoiningOk, ReleasedOk, HandshakeOk;
    var g := e.mine.names[name];
    assert HasLane(x, g);
    c :| 0 <= c < |x.rx.notLocal.localToGlobal| && x.rx.notLocal.localToGlobal[c] == g;
    assert Lookup(x.rx.handled, Lane(Tra, c)) == BufferOf(x.rx.buffers, g);
    assert x.state.Registration? ==> Lookup(x.rx.handled, Lane(Tra, c)) == [];
  }

  /// The lane behind a non-empty buffer carries the name on the peer's side too.
  lemma InboxName(e: Env, y: Endpoint, x: Endpoint, name: Bytes) returns (c: nat)
    requires PeerOk(e, y) && Good(e, y, x) && name in e.mine.names && Inbox(e.mine, x, name) != []
    ensures x.state.Transfer? && c < |x.rx.notLocal.localToGlobal| && name in e.theirs.names
    ensures Lookup(x.rx.handled, Lane(Tra, c)) == Inbox(e.mine, x, name)
    ensures Behind(e.mine, x, c) == Some(e.mine.channels[e.mine.names[name]])
    ensures Outbox(e.theirs, y, name) == Lookup(y.tx.submitted, Lane(Tra, c))
  {
    hide PeerOk, Good, Inbox;
    c := InboxLane(e, y, x, name);
    NameOfLane(e, y, x, c);
    ListingFits(e, y);
    hide ListingOk, DistinctEntries;
    assert y.tx.listing[c].name == name;
  }

  lemma SegmentIsLong(e: Env, y: Endpoint, p: Packet)
    requires PeerOk(e, y) && p in y.tx.sent
    ensures p.seg.Some? ==> exists q :: q in Lookup(y.tx.submitted, p.lane) && |q| > MAX_NON_SEGMENTED_PAYLOAD
  {
    hide PeerOk, AckPayload, Chunks;
    PeerParts(e, y, p);
  }

  lemma ShortIsClean(e: Env, y: Endpoint, lane: Lane)
    requires PeerOk(e, y) && Short(Lookup(y.tx.submitted, lane))
    ensures Clean(y.tx, lane)
  {
    hide PeerOk;
    forall p | p in y.tx.sent && p.lane == lane
      ensures p.seg.None?
    {
      SegmentIsLong(e, y, p);
    }
  }

  // ---- In-order delivery ----

  lemma OrderedLaneOk(e: Env, y: Endpoint, x: Endpoint, c: nat)
    requires Good(e, y, x) && Behind(e.mine, x, c).Some? && Behind(e.mine, x, c).value.IsOrdered()
    ensures LaneOk(y, x, Lane(Tra, c), Behind(e.mine, x, c).value.IsReliable())
  {
    hide UpInv, AcceptOk, TableOk, QuietOk, BuffersOk, RoutedOk, JoiningOk, ReleasedOk, HandshakeOk, LaneOk;
  }

  lemma PrefixAt(e: Env, y: Endpoint, x: Endpoint, name: Bytes)
    requires Facing(e, y, x) && name in e.mine.names && name in e.theirs.names
    requires e.mine.names[name] < |e.mine.channels| && e.mine.channels[e.mine.names[name]].IsOrdered()
    requires Short(Outbox(e.theirs, y, name))
    ensures IsPrefix(Inbox(e.mine, x, name), Outbox(e.theirs, y, name))
  {
    hide PeerOk, RecvInv, UpInv, Untouched, Inbox, Outbox, LanesOk;
    if Untouched(x) {
      UntouchedEmpty(e, x, name);
    } else if Inbox(e.mine, x, name) != [] {
      var c := InboxName(e, y, x, name);
      ShortIsClean(e, y, Lane(Tra, c));
      OrderedLaneOk(e, y, x, c);
    }
  }

  /// In-order delivery: on an ordered channel whose payloads go out in one packet each, the receiver
  /// is given a prefix of what its peer submitted on the channel of that name, under any interleaving
  /// of sends, resends and acknowledgements, and whatever the network loses, repeats or reorders.
  lemma OrderedPrefixDelivery(c: Config, run: seq<Sys>, events: seq<Event>, i: nat, side: Side, name: Bytes)
    requires c.Ok() && IsRun(c, run, events) && i < |run| && Unwrapped(run[i])
    requires name in c.left.names && name in c.right.names
    requires c.At(side).ById(c.At(side).names[name]).Some? && c.At(side).ById(c.At(side).names[name]).value.IsOrdered()
    requires Short(Outbox(c.At(side.Other()), run[i].At(side.Other()).x, name))
    ensures IsPrefix(Inbox(c.At(side), run[i].At(side).x, name),
                     Outbox(c.At(side.Other()), run[i].At(side.Other()).x, name))
  {
    hide IsRun, Facing, Unwrapped, Sound, Inbox, Outbox;
    Reached(c, run, events, i, side);
    PrefixAt(c.EnvOf(side), run[i].At(side.Other()).x, run[i].At(side).x, name);
  }

  // ---- Routing by name ----

  /// Neither ordered nor reliable.
  predicate Plain(ch: Channel) {
    !ch.IsOrdered() && !ch.IsReliable()
  }

  /// On a plain channel, and where every payload fits one packet, what was sent arrives as it was.
  lemma SentUnchanged(made: seq<Bytes>, ch: Channel, q: Bytes)
    requires SentAs(made, ch, q) && (Plain(ch) || Short(made))
    ensures q in made
  {
    if q !in made {
      var m :| m in made && Restripped(ch, m, q);
      ChunksFlat(m);
      PlainStripAll(Chunks(m)[1..]);
    }
  }

  lemma RoutedAt(e: Env, y: Endpoint, x: Endpoint, name: Bytes)
    requires Facing(e, y, x) && name in e.mine.names && Inbox(e.mine, x, name) != []
    ensures name in e.theirs.names && e.mine.names[name] < |e.mine.channels|
    ensures forall q :: q in Inbox(e.mine, x, name) ==>
              SentAs(Outbox(e.theirs, y, name), e.mine.channels[e.mine.names[name]], q)
  {
    hide PeerOk, RecvInv, UpInv, Untouched, Inbox, Outbox, LanesOk, SentAs, WindowRouted;
    if Untouched(x) {
      UntouchedEmpty(e, x, name);
    }
    var c := InboxName(e, y, x, name);
    ListingFits(e, y);
    hide ListingOk, DistinctEntries;
    GoodRouted(e, y, x);
  }

  lemma GoodRouted(e: Env, y: Endpoint, x: Endpoint)
    requires Good(e, y, x)
    ensures RoutedOk(e.mine, y, x)
  {
    hide UpInv, AcceptOk, TableOk, LanesOk, QuietOk, BuffersOk, RoutedOk, JoiningOk, ReleasedOk, HandshakeOk;
  }

  /// Routing by name: a payload in the receiver's buffer for a name was submitted by the peer under
  /// that name, or is what the second header strip made of a message in segments that was, however
  /// the two providers number their channels.
  lemma RoutedByName(c: Config, run: seq<Sys>, events: seq<Event>, i: nat, side: Side, name: Bytes)
    requires c.Ok() && IsRun(c, run, events) && i < |run| && Unwrapped(run[i])
    requires name in c.At(side).names && Inbox(c.At(side), run[i].At(side).x, name) != []
    ensures name in c.At(side.Other()).names && c.At(side).names[name] < |c.At(side).channels|
    ensures forall q :: q in Inbox(c.At(side), run[i].At(side).x, name) ==>
              SentAs(Outbox(c.At(side.Other()), run[i].At(side.Other()).x, name),
                     c.At(side).channels[c.At(side).names[name]], q)
  {
    hide IsRun, Facing, Unwrapped, Sound, Inbox, Outbox, SentAs;
    Reached(c, run, events, i, side);
    RoutedAt(c.EnvOf(side), run[i].At(side.Other()).x, run[i].At(side).x, name);
  }

  // ---- What the application asked for ----

  /// The action asks side `side` to send on the named channel while it is in transfer.
  ghost predicate Asks(prov: Provider, side: Side, n: Node, e: Event, name: Bytes)
    requires name in prov.names
  {
    e.side == side && e.action.Sends? && e.action.global == prov.names[name] && n.x.state.Transfer?
  }

  /// The payloads that the application of a side asked to send on a channel in the first `i` steps.
  ghost function Asked(c: Config, run: seq<Sys>, events: seq<Event>, i: nat, side: Side, name: Bytes): seq<Bytes>
    requires i <= |events| < |run| && name in c.At(side).names
  {
    if i == 0 then []
    else
      Asked(c, run, events, i - 1, side, name)
      + if Asks(c.At(side), side, run[i - 1].At(side), events[i - 1], name) then [events[i - 1].action.payload] else []
  }

  /// A channel of the application.
  predicate AppName(name: Bytes) {
    name != ACK_NAME && name != MANAGEMENT_NAME
  }

  lemma OwnNumbers(prov: Provider, x: Endpoint)
    requires SelfInv(prov, x)
    ensures x.local == Appended(x.tx.listing[..|x.local.localToGlobal|]) && ListingOk(prov, x.tx.listing)
    ensures |x.local.localToGlobal| <= |x.tx.listing|
    ensures x.local.Inverse() && |x.local.localToGlobal| < NULL_ID
    ensures StandsAt(x.tx.listing[..|x.local.localToGlobal|], ACK_NAME, x.local.ack)
  {
    hide TxInv, BufferOk, StagesOk, AnnouncedAll;
    var n := |x.local.localToGlobal|;
    var front := x.tx.listing[..n];
    FrontDistinct(prov, x.tx.listing, n);
    AppendedShape(front);
  }

  lemma FrontDistinct(prov: Provider, listing: seq<Entry>, n: nat)
    requires ListingOk(prov, listing) && n <= |listing|
    ensures DistinctEntries(listing[..n])
  {
  }

  /// The lane of a named channel of the application is not the lane of acknowledgements.
  lemma NotForAcks(prov: Provider, x: Endpoint, name: Bytes)
    requires prov.WellFormed() && SelfInv(prov, x) && name in prov.names && AppName(name)
    ensures var id := x.local.LocalId(Tra, prov.names[name]);
            id.Some? ==> id.value < |x.local.localToGlobal| && !IsAckLane(x.local, Lane(Tra, id.value))
  {
    hide SelfInv;
    OwnNumbers(prov, x);
    var id := x.local.LocalId(Tra, prov.names[name]);
    if id.Some? {
      hide Appended;
      assert x.local.localToGlobal[id.value] == x.tx.listing[id.value].global == prov.names[name];
      assert x.tx.listing[id.value].name == name;
    }
  }

  lemma ReactsOutbox(prov: Provider, x: Endpoint, x': Endpoint, name: Bytes)
    requires prov.WellFormed() && SelfInv(prov, x) && name in prov.names && AppName(name) && Reacts(x, x')
    ensures Outbox(prov, x', name) == Outbox(prov, x, name)
  {
    hide SelfInv, Forward, IsAckLane;
    NotForAcks(prov, x, name);
  }

  /// Two channels have two lanes.
  lemma OtherLane(prov: Provider, x: Endpoint, g: nat, h: nat)
    requires SelfInv(prov, x) && g != h && x.local.LocalId(Tra, g).Some? && x.local.LocalId(Tra, h).Some?
    ensures x.local.LocalId(Tra, g) != x.local.LocalId(Tra, h)
  {
    hide SelfInv;
    OwnNumbers(prov, x);
  }

  lemma UpListing(prov: Provider, x: Endpoint)
    requires UpInv(prov, x)
    ensures IsListing(prov, x.tx.listing) && |x.local.localToGlobal| == |x.tx.listing| <= |x.tx.orders.basic|
    ensures SelfInv(prov, x)
  {
    hide TxInv, BufferOk, StagesOk, AnnouncedOk, IsListing;
  }

  lemma ListedAt(prov: Provider, listing: seq<Entry>, name: Bytes) returns (j: nat)
    requires prov.WellFormed() && IsListing(prov, listing) && name in prov.names
    ensures j < |listing| && listing[j].name == name && listing[j].global == prov.names[name]
    ensures prov.ById(prov.names[name]).Some?
  {
    var i :| 0 <= i < |listing| && listing[i].name == name;
    j := i;
  }

  lemma AllNumbered(prov: Provider, x: Endpoint, name: Bytes)
    requires prov.WellFormed() && UpInv(prov, x) && name in prov.names
    ensures x.local.LocalId(Tra, prov.names[name]).Some? && prov.ById(prov.names[name]).Some?
    ensures x.local.LocalId(Tra, prov.names[name]).value < |x.tx.orders.basic|
  {
    hide UpInv, SelfInv, ListingOk, StandsAt, IsListing, Appended, Provider.WellFormed;
    UpListing(prov, x);
    OwnNumbers(prov, x);
    var j := ListedAt(prov, x.tx.listing, name);
    assert x.tx.listing[..|x.local.localToGlobal|] == x.tx.listing;
    assert x.local.localToGlobal[j] == prov.names[name];
  }

  lemma SendsOutbox(prov: Provider, x: Endpoint, g: nat, payload: Bytes, name: Bytes)
    requires prov.WellFormed() && UpInv(prov, x) && AppChannel(prov, g) && name in prov.names && AppName(name)
    ensures Outbox(prov, AppSend(x, prov, g, payload).x, name)
         == Outbox(prov, x, name) + if g == prov.names[name] && x.state.Transfer? then [payload] else []
  {
    hide UpInv, SendPacket, SelfInv;
    AppLane(Env(prov, prov), x, g);
    hide IsAckLane, LaneChannel;
    UpIsSelf(prov, x);
    if x.state.Transfer? && x.local.LocalId(Tra, g).Some? && prov.ById(g).Some? {
      var own := x.local.LocalId(Tra, prov.names[name]);
      SendPacketOn(x.tx, prov.ById(g).value, Lane(Tra, x.local.LocalId(Tra, g).value), payload);
      hide NewOn;
      if g != prov.names[name] {
        if own.Some? {
          OtherLane(prov, x, g, prov.names[name]);
        }
      } else {
        AllNumbered(prov, x, name);
      }
    } else if x.state.Transfer? {
      AllNumbered(prov, x, name);
    }
  }

  lemma OpensOutbox(prov: Provider, x: Endpoint, name: Bytes)
    requires SelfInv(prov, x) && x.state.Registration? && name in prov.names
    ensures Outbox(prov, x, name) == []
  {
    hide TxInv, BufferOk, AnnouncedOk, AnnouncedAll;
  }

  lemma ActOutbox(prov: Provider, n: Node, peer: Node, a: Action, name: Bytes)
    requires prov.WellFormed() && NodeOk(prov, n) && NodeOk(prov, Act(prov, n, a)) && CountsOk(n)
    requires Enabled(prov, n, peer, a)
    requires name in prov.names && AppName(name)
    ensures Outbox(prov, Act(prov, n, a).x, name)
         == Outbox(prov, n.x, name)
            + if a.Sends? && a.global == prov.names[name] && n.x.state.Transfer? then [a.payload] else []
  {
    hide SelfInv, UpInv, Outbox, Receive, Tick, AppSend, Initialize, Reacts, Counted, Tallied, Enumerates, AppChannel;
    match a
    case Opens(all) =>
      ActForward(prov, n, a);
      StillRegistration(prov, n, all);
      OpensOutbox(prov, n.x, name);
      OpensOutbox(prov, Act(prov, n, a).x, name);
    case Takes(datagram) =>
      ReceiveReacts(n.x, prov, datagram);
      ReactsOutbox(prov, n.x, Receive(n.x, prov, datagram).x, name);
    case Ticks(delta) =>
      TickReacts(n.x, delta);
      ReactsOutbox(prov, n.x, Tick(n.x, delta).x, name);
    case Sends(global, payload) =>
      SendsOutbox(prov, n.x, global, payload, name);
  }

  lemma StillRegistration(prov: Provider, n: Node, all: seq<Entry>)
    requires CountsOk(n) && n.phase.Fresh?
    ensures Act(prov, n, Opens(all)).x.state.Registration?
  {
    hide SendPacket, Counted, Tallied, Sorted;
    var listing := Sorted(prov, all);
    AnnounceState(WithListing(n.x, prov, listing), listing, 0);
  }

  lemma {:induction false} AnnounceState(x: Endpoint, listing: seq<Entry>, i: nat)
    requires i <= |listing|
    ensures AnnounceFrom(x, listing, i).x.state == x.state
    decreases |listing| - i
  {
    hide SendPacket;
    if i < |listing| {
      var r := AnnounceOne(x, listing[i], i);
      if r.out.Fine? {
        AnnounceState(r.x, listing, i + 1);
      }
    }
  }

  lemma StepOutbox(c: Config, s: Sys, e: Event, side: Side, name: Bytes)
    requires c.Ok() && SysInv(c, s) && Unwrapped(Next(c, s, e))
    requires Enabled(c.At(e.side), s.At(e.side), s.At(e.side.Other()), e.action)
    requires name in c.At(side).names && AppName(name)
    ensures Unwrapped(s)
    ensures Outbox(c.At(side), Next(c, s, e).At(side).x, name)
         == Outbox(c.At(side), s.At(side).x, name)
            + if Asks(c.At(side), side, s.At(side), e, name) then [e.action.payload] else []
  {
    hide Outbox, SysInv, Enabled, Act, AppName, Unwrapped, NodeOk, CountsOk, Forward;
    var s' := Next(c, s, e);
    StepKeeps(c, s, e);
    Before(s, s');
    if e.side == side {
      SideOk(c, s, side);
      SideOk(c, s', side);
      ActOutbox(c.At(side), s.At(side), s.At(side.Other()), e.action, name);
    } else {
      assert s'.At(side) == s.At(side);
    }
  }

  /// The outbox of a channel is what its application asked to send in transfer, in order.
  lemma {:induction false} OutboxIsAsked(c: Config, run: seq<Sys>, events: seq<Event>, i: nat, side: Side, name: Bytes)
    requires c.Ok() && IsRun(c, run, events) && i < |run| && Unwrapped(run[i])
    requires name in c.At(side).names && AppName(name)
    ensures Outbox(c.At(side), run[i].At(side).x, name) == Asked(c, run, events, i, side, name)
  {
    hide Outbox, SysInv, Enabled, AppName, Unwrapped, Asks, Next;
    if i == 0 {
      StartAsked(c, side, name);
    } else {
      RunSound(c, run, events, i - 1);
      var e := events[i - 1];
      assert run[i] == Next(c, run[i - 1], e);
      StepOutbox(c, run[i - 1], e, side, name);
      OutboxIsAsked(c, run, events, i - 1, side, name);
    }
  }

  lemma Before(s: Sys, s': Sys)
    requires (forall side :: Forward(s.At(side).x, s'.At(side).x)) && Unwrapped(s')
    ensures Unwrapped(s)
  {
    hide Counted, Tallied;
    assert Forward(s.At(Left).x, s'.At(Left).x) && Forward(s.At(Right).x, s'.At(Right).x);
  }

  lemma SideOk(c: Config, s: Sys, side: Side)
    requires c.Ok() && SysInv(c, s) && Unwrapped(s)
    ensures c.At(side).WellFormed() && NodeOk(c.At(side), s.At(side)) && CountsOk(s.At(side))
  {
    hide SelfInv, UpInv, RecvInv, Untouched, Counted, Tallied;
  }

  lemma StartAsked(c: Config, side: Side, name: Bytes)
    requires name in c.At(side).names
    ensures Outbox(c.At(side), NewEndpoint(), name) == []
  {
  }

  /// No counter has started over while neither side has sent 2^32 packets or messages, or 2^32
  /// payloads on one channel.
  lemma FewUnwrapped(c: Config, run: seq<Sys>, events: seq<Event>, i: nat)
    requires c.Ok() && IsRun(c, run, events) && i < |run| && AllFew(run[i])
    ensures Unwrapped(run[i])
  {
    hide Sound, Few;
    RunSound(c, run, events, i);
    NotWrapped(run[i].left.x.tx);
    NotWrapped(run[i].right.x.tx);
  }

  // ---- From application to application ----

  /// What the application of one side is given on an ordered channel is a prefix of what the
  /// application of the other side asked to send on the channel of that name.
  lemma DeliveredAsAsked(c: Config, run: seq<Sys>, events: seq<Event>, i: nat, side: Side, name: Bytes)
    requires c.Ok() && IsRun(c, run, events) && i < |run| && Unwrapped(run[i])
    requires name in c.left.names && name in c.right.names && AppName(name)
    requires c.At(side).ById(c.At(side).names[name]).Some? && c.At(side).ById(c.At(side).names[name]).value.IsOrdered()
    requires Short(Asked(c, run, events, i, side.Other(), name))
    ensures IsPrefix(Inbox(c.At(side), run[i].At(side).x, name), Asked(c, run, events, i, side.Other(), name))
  {
    hide IsRun, Inbox, Outbox, Asked, Unwrapped;
    OutboxIsAsked(c, run, events, i, side.Other(), name);
    OrderedPrefixDelivery(c, run, events, i, side, name);
  }

  /// What it is given on any channel, the other application asked to send on the channel of that
  /// name, except that a message in segments comes as the second header strip leaves it.
  lemma RoutedAsAsked(c: Config, run: seq<Sys>, events: seq<Event>, i: nat, side: Side, name: Bytes)
    requires c.Ok() && IsRun(c, run, events) && i < |run| && Unwrapped(run[i])
    requires name in c.At(side).names && AppName(name) && Inbox(c.At(side), run[i].At(side).x, name) != []
    ensures name in c.At(side.Other()).names && c.At(side).names[name] < |c.At(side).channels|
    ensures forall q :: q in Inbox(c.At(side), run[i].At(side).x, name) ==>
              SentAs(Asked(c, run, events, i, side.Other(), name), c.At(side).channels[c.At(side).names[name]], q)
  {
    hide IsRun, Inbox, Outbox, SentAs, Asked, Unwrapped;
    RoutedByName(c, run, events, i, side, name);
    OutboxIsAsked(c, run, events, i, side.Other(), name);
  }

  // ---- Nothing is taken back ----

  /// What was given to an application stays given, and the transfer stage is never left.
  lemma {:induction false} DeliveredStays(c: Config, run: seq<Sys>, events: seq<Event>, i: nat, j: nat, side: Side)
    requires c.Ok() && IsRun(c, run, events) && i <= j < |run|
    ensures forall g :: IsPrefix(BufferOf(run[i].At(side).x.rx.buffers, g), BufferOf(run[j].At(side).x.rx.buffers, g))
    ensures run[i].At(side).x.state.Transfer? ==> run[j].At(side).x.state.Transfer?
    decreases j - i
  {
    hide SysInv, Enabled, Act, Onward;
    if i < j {
      RunSound(c, run, events, i);
      assert run[i + 1] == Next(c, run[i], events[i]);
      StepKeeps(c, run[i], events[i]);
      DeliveredStays(c, run, events, i + 1, j, side);
      assert Forward(run[i].At(side).x, run[i + 1].At(side).x);
    }
  }
}
