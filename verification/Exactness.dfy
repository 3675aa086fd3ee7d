/**
 How often. On a reliable channel every acknowledged packet has reached the other application, or
 waits in its turn, and no payload reaches it more often than it was submitted.
 */
module Exactness {
  import opened Base
  import opened SlotKeys
  import opened Framing
  import opened Channels
  import opened Endpoints
  import opened Sending
  import opened Counting
  import opened Invariants
  import opened Receiving
  import opened Delivering
  import opened Arriving
  import opened Opening
  import opened Systems
  import opened Guarantees
  import opened Protocol
  import opened Progress
  import opened Settling

  // ---- From application to application ----

  /// In transfer a named channel of the application has one lane, which both sides know by their own ids.
  lemma LaneOfName(e: Env, y: Endpoint, x: Endpoint, name: Bytes) returns (c: nat)
    requires PeerOk(e, y) && Good(e, y, x) && x.state.Transfer? && name in e.mine.names && name in e.theirs.names
    requires AppName(name)
    ensures c < |x.rx.notLocal.localToGlobal| && c != x.rx.notLocal.ack
    ensures y.local.LocalId(Tra, e.theirs.names[name]) == Some(c)
    ensures Behind(e.mine, x, c).Some? && e.mine.ById(e.mine.names[name]) == Behind(e.mine, x, c)
    ensures Lookup(x.rx.handled, Lane(Tra, c)) == Inbox(e.mine, x, name)
    ensures Lookup(y.tx.submitted, Lane(Tra, c)) == Outbox(e.theirs, y, name)
  {
    hide PeerOk, Good, Provider.WellFormed, ListingOk, DistinctEntries, Appended, QuietOk, UpInv, AcceptOk,
         KeysDistinct;
    EachNamed(e, y, x, name);
    c :| NamedAt(e, y, x, c, name);
    GoodSides(e, y, x);
    NameOfLane(e, y, x, c);
    SameEntry(e, y, x, c);
    ListingFits(e, y);
    OneName(e.theirs, name, y.tx.listing[c].name);
  }

  lemma OneName(prov: Provider, name: Bytes, other: Bytes)
    requires prov.WellFormed() && name in prov.names && other in prov.names && prov.names[name] == prov.names[other]
    ensures name == other
  {
  }

  lemma SettledAt(prov: Provider, y: Endpoint, x: Endpoint, c: nat)
    requires SettledOk(prov, y, x) && Behind(prov, x, c).Some? && Behind(prov, x, c).value.IsReliable()
    requires c != x.rx.notLocal.ack && Clean(y.tx, Lane(Tra, c))
    ensures SettledOn(y.tx.sent, x, Lane(Tra, c), Behind(prov, x, c).value)
  {
    hide SettledOn, Clean;
  }

  lemma TalliedOn(tx: Tx, lane: Lane, keys: set<Key>)
    requires Tallied(tx.sent, tx.submitted)
    ensures Payloads(tx.sent, NotedOn(lane, keys)) <= multiset(Lookup(tx.submitted, lane))
  {
    FewerPayloads(tx.sent, NotedOn(lane, keys), WholeOn(lane));
  }

  /// The payloads that went out on the lane of this name in one packet each and whose acknowledgement
  /// has come back.
  ghost function Released(prov: Provider, y: Endpoint, name: Bytes): multiset<Bytes>
    requires name in prov.names
  {
    var id := y.local.LocalId(Tra, prov.names[name]);
    if id.Some? then Payloads(y.tx.sent, NotedOn(Lane(Tra, id.value), KeySet(y.tx.released))) else multiset{}
  }

  lemma NothingReleased(e: Env, y: Endpoint, x: Endpoint, name: Bytes)
    requires Blank(y, x) && ReleasedOk(x, y) && name in e.theirs.names
    ensures Released(e.theirs, y, name) == multiset{}
  {
    var id := y.local.LocalId(Tra, e.theirs.names[name]);
    if id.Some? {
      NoPayloads(y.tx.sent, NotedOn(Lane(Tra, id.value), KeySet(y.tx.released)));
    }
  }

  ghost predicate Between(e: Env, y: Endpoint, x: Endpoint, name: Bytes)
    requires name in e.mine.names && name in e.theirs.names
  {
    Released(e.theirs, y, name) <= multiset(Inbox(e.mine, x, name)) <= multiset(Outbox(e.theirs, y, name))
  }

  lemma BetweenAt(e: Env, y: Endpoint, x: Endpoint, name: Bytes)
    requires PeerOk(e, y) && Good(e, y, x) && x.state.Transfer? && name in e.mine.names && name in e.theirs.names
    requires AppName(name) && Short(Outbox(e.theirs, y, name)) && SettledOk(e.mine, y, x) && ReleasedOk(x, y)
    requires e.mine.ById(e.mine.names[name]).Some? && Tallied(y.tx.sent, y.tx.submitted)
    requires var ch := e.mine.ById(e.mine.names[name]).value; ch.IsReliable() && !ch.IsOrdered()
    ensures Between(e, y, x, name)
  {
    hide PeerOk, Good, SettledOk, Tallied, Inbox, Outbox, Behind, Clean;
    var c := LaneOfName(e, y, x, name);
    ShortIsClean(e, y, Lane(Tra, c));
    SettledAt(e.mine, y, x, c);
    TalliedOn(y.tx, Lane(Tra, c), x.rx.noted);
    FewerPayloads(y.tx.sent, NotedOn(Lane(Tra, c), KeySet(y.tx.released)), NotedOn(Lane(Tra, c), x.rx.noted));
  }

  /// A receiver still in registration.
  lemma BetweenBefore(e: Env, y: Endpoint, x: Endpoint, name: Bytes)
    requires Facing(e, y, x) && x.state.Registration? && name in e.mine.names && name in e.theirs.names
    requires Blank(y, x) && ReleasedOk(x, y)
    ensures Between(e, y, x, name)
  {
    hide PeerOk, RecvInv, UpInv, Untouched, Blank, ReleasedOk, Inbox, Outbox, Released;
    NothingReleased(e, y, x, name);
    if Untouched(x) {
      UntouchedEmpty(e, x, name);
    } else if Inbox(e.mine, x, name) != [] {
      var c := InboxLane(e, y, x, name);
    }
  }

  /// Exactly once: on a reliable, unordered channel whose payloads go out in one packet each, what
  /// the sender knows to be acknowledged has been given to the other application, each payload as
  /// often as it was sent and acknowledged, and nothing is given to it more often than it was
  /// submitted.
  lemma ExactlyOnce(c: Config, run: seq<Sys>, events: seq<Event>, i: nat, side: Side, name: Bytes)
    requires c.Ok() && IsRun(c, run, events) && i < |run| && Unwrapped(run[i])
    requires name in c.left.names && name in c.right.names && AppName(name)
    requires c.At(side).ById(c.At(side).names[name]).Some?
    requires var ch := c.At(side).ById(c.At(side).names[name]).value; ch.IsReliable() && !ch.IsOrdered()
    requires Short(Outbox(c.At(side.Other()), run[i].At(side.Other()).x, name))
    ensures Released(c.At(side.Other()), run[i].At(side.Other()).x, name)
         <= multiset(Inbox(c.At(side), run[i].At(side).x, name))
         <= multiset(Outbox(c.At(side.Other()), run[i].At(side.Other()).x, name))
  {
    hide IsRun, Facing, Unwrapped, Sound, PeerOk, Good, SettledOk, Tallied, Counted, Inbox, Outbox, Released, RecvInv,
         AcceptOk, QuietOk, KeysDistinct, NodeOk, EnvOk, ReleasedOk;
    var x, y := run[i].At(side).x, run[i].At(side.Other()).x;
    Reached(c, run, events, i, side);
    RunSound(c, run, events, i);
    RunSettled(c, run, events, i, side);
    SoundSide(c, run[i], side);
    SidePair(c, run[i], side);
    RecvKeys(c.At(side.Other()), x, y);
    if x.state.Transfer? {
      InTransfer(c.EnvOf(side), y, x);
      BetweenAt(c.EnvOf(side), y, x, name);
    } else {
      RegistrationBlank(y, x);
      BetweenBefore(c.EnvOf(side), y, x, name);
    }
  }

  /// In the terms of the two applications.
  lemma ExactlyOnceAsAsked(c: Config, run: seq<Sys>, events: seq<Event>, i: nat, side: Side, name: Bytes)
    requires c.Ok() && IsRun(c, run, events) && i < |run| && Unwrapped(run[i])
    requires name in c.left.names && name in c.right.names && AppName(name)
    requires c.At(side).ById(c.At(side).names[name]).Some?
    requires var ch := c.At(side).ById(c.At(side).names[name]).value; ch.IsReliable() && !ch.IsOrdered()
    requires Short(Asked(c, run, events, i, side.Other(), name))
    ensures Released(c.At(side.Other()), run[i].At(side.Other()).x, name)
         <= multiset(Inbox(c.At(side), run[i].At(side).x, name))
         <= multiset(Asked(c, run, events, i, side.Other(), name))
  {
    hide IsRun, Inbox, Outbox, Asked, Unwrapped, Released;
    OutboxIsAsked(c, run, events, i, side.Other(), name);
    ExactlyOnce(c, run, events, i, side, name);
  }

  // ---- Acknowledged means arrived, in order ----

  /// The packet's payload has been given to the application in its place, or waits in the orderer for
  /// its turn, or the orderer is lost.
  ghost predicate Arrived(prov: Provider, x: Endpoint, name: Bytes, p: Packet)
    requires name in prov.names
  {
    && p.order.Some?
    && var o, inbox := p.order.value, Inbox(prov, x, name);
    && (WindowOf(x, p.lane).Some? ==>
          if o < |inbox| then inbox[o] == p.payload
          else o in WindowOf(x, p.lane).value.pending && WindowOf(x, p.lane).value.pending[o] == p.payload)
  }

  lemma PushedArrived(e: Env, y: Endpoint, x: Endpoint, name: Bytes, p: Packet)
    requires LaneOk(y, x, p.lane, true) && Clean(y.tx, p.lane) && name in e.mine.names
    requires Lookup(x.rx.handled, p.lane) == Inbox(e.mine, x, name)
    requires p.order.Some? && p.order.value < |Lookup(y.tx.submitted, p.lane)|
    requires p.payload == Lookup(y.tx.submitted, p.lane)[p.order.value]
    requires WindowOf(x, p.lane).Some? ==> p.order.value in Lookup(x.rx.pushed, p.lane)
    ensures Arrived(e.mine, x, name, p)
  {
  }

  lemma OrderedPayload(e: Env, y: Endpoint, p: Packet)
    requires PeerOk(e, y) && p in y.tx.sent && p.order.Some? && p.seg.None?
    ensures p.order.value < |Lookup(y.tx.submitted, p.lane)|
    ensures p.payload == Lookup(y.tx.submitted, p.lane)[p.order.value]
  {
    hide PeerOk;
    PeerParts(e, y, p);
  }

  lemma ArrivedAt(e: Env, y: Endpoint, x: Endpoint, name: Bytes, p: Packet)
    requires PeerOk(e, y) && Good(e, y, x) && x.state.Transfer? && name in e.mine.names && name in e.theirs.names
    requires AppName(name) && Short(Outbox(e.theirs, y, name)) && SettledOk(e.mine, y, x)
    requires e.mine.ById(e.mine.names[name]).Some?
    requires var ch := e.mine.ById(e.mine.names[name]).value; ch.IsReliable() && ch.IsOrdered()
    requires p in y.tx.sent && p.lane.stage.Tra? && y.local.LocalId(Tra, e.theirs.names[name]) == Some(p.lane.chan)
    requires p.key.Some? && p.key.value in x.rx.noted
    ensures Arrived(e.mine, x, name, p)
  {
    hide PeerOk, Good, SettledOk, Inbox, Outbox, Behind, Clean, LaneOk, LaneChannel, Arrived, WindowOf;
    var c := LaneOfName(e, y, x, name);
    ShortIsClean(e, y, p.lane);
    SettledAt(e.mine, y, x, c);
    OrderedLaneOk(e, y, x, c);
    CleanPacket(y, p);
    PacketKind(e, y, p);
    KindOfLane(e, y, x, p, c);
    OrderedPayload(e, y, p);
    PushedArrived(e, y, x, name, p);
  }

  lemma KindOfLane(e: Env, y: Endpoint, x: Endpoint, p: Packet, c: nat)
    requires PeerOk(e, y) && Good(e, y, x) && x.state.Transfer? && p in y.tx.sent && p.lane == Lane(Tra, c)
    requires Behind(e.mine, x, c).Some?
    ensures p.order.Some? <==> Behind(e.mine, x, c).value.IsOrdered()
  {
    hide PeerOk, Good;
    InTable(e, x, c);
    PacketKind(e, y, p);
    SameEntry(e, y, x, c);
    PeerMatches(e, y, y.tx.listing[c].name);
  }

  /// Acknowledged means arrived: once the acknowledgement of a packet on a reliable, ordered channel
  /// has come back, its payload stands in the other application's inbox at its own place, or waits
  /// for its turn, unless the orderer of the channel was lost.
  lemma AcknowledgedArrived(c: Config, run: seq<Sys>, events: seq<Event>, i: nat, side: Side, name: Bytes, p: Packet)
    requires c.Ok() && IsRun(c, run, events) && i < |run| && Unwrapped(run[i])
    requires name in c.left.names && name in c.right.names && AppName(name)
    requires c.At(side).ById(c.At(side).names[name]).Some?
    requires var ch := c.At(side).ById(c.At(side).names[name]).value; ch.IsReliable() && ch.IsOrdered()
    requires Short(Outbox(c.At(side.Other()), run[i].At(side.Other()).x, name))
    requires var y := run[i].At(side.Other()).x;
             && p in y.tx.sent && p.lane.stage.Tra? && p.key.Some? && p.key.value in y.tx.released
             && y.local.LocalId(Tra, c.At(side.Other()).names[name]) == Some(p.lane.chan)
    ensures run[i].At(side).x.state.Transfer? && Arrived(c.At(side), run[i].At(side).x, name, p)
  {
    hide IsRun, Facing, Unwrapped, Sound, PeerOk, Good, SettledOk, Inbox, Outbox, RecvInv, AcceptOk, QuietOk,
         KeysDistinct, NodeOk, EnvOk, Arrived;
    var x, y := run[i].At(side).x, run[i].At(side.Other()).x;
    Reached(c, run, events, i, side);
    RunSettled(c, run, events, i, side);
    SoundSide(c, run[i], side);
    SidePair(c, run[i], side);
    RecvKeys(c.At(side.Other()), x, y);
    if x.state.Registration? {
      RegistrationBlank(y, x);
    }
    InTransfer(c.EnvOf(side), y, x);
    ArrivedAt(c.EnvOf(side), y, x, name, p);
  }
}
