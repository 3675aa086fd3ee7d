/**
 What never arrives: a packet that was marked as a duplicate but could not be noted, and an order that
 was used up by a send that failed.
 */
module Losses {
  import opened Base
  import opened SlotKeys
  import opened Framing
  import opened Channels
  import opened Endpoints
  import opened Sending
  import opened Acknowledging
  import opened Counting
  import opened Invariants
  import opened Receiving
  import opened Delivering
  import opened Arriving
  import opened Opening
  import opened Systems
  import opened Guarantees
  import opened Protocol
  import opened Turns
  import opened Panics
  import opened Settling
  import opened Exactness
  import R = Resend

  // ---- Accepted but not noted ----

  /// A key that is new counts as a duplicate from now on, but is noted if and only if there is room:
  /// in the buffer, or after flushing that in the resender.
  lemma NotedExactly(e: Env, x: Endpoint, k: Key)
    requires UpInv(e.mine, x) && k !in x.rx.dup && k !in x.rx.noted
    ensures var x' := Accept(x, Some(k)).x;
            && k in x'.rx.dup && k in AccKeys(x'.rx)
            && (k in x'.rx.noted
                <==> |x.ack + EncodeKey(k)| <= MAX_NON_SEGMENTED_PAYLOAD
                     || (!x.tx.resender.Full() && !x.tx.resender.Exhausted()))
  {
    hide UpInv, Acknowledge, EncodeKey, R.Resender.Full, R.Resender.Exhausted;
    AcceptExactly(e, x, Some(k));
    AcceptNotes(x, k);
    var x' := Accept(x, Some(k)).x;
    assert Accepted(StageOf(x.state), k) in x'.rx.accepted by {
      assert x'.rx.accepted == x.rx.accepted + [Accepted(StageOf(x.state), k)];
    }
  }

  lemma AcceptMarks(x: Endpoint, k: Key)
    requires k !in x.rx.dup
    ensures k in AccKeys(Accept(x, Some(k)).x.rx)
  {
    hide Acknowledge;
    var x' := Accept(x, Some(k)).x;
    assert x'.rx.accepted == x.rx.accepted + [Accepted(StageOf(x.state), k)];
    assert Accepted(StageOf(x.state), k) in x'.rx.accepted;
  }

  /// The arrival of a packet in its own stage, with a key that is new there.
  ghost predicate FirstArrival(x: Endpoint, p: Packet) {
    var z := AtArrival(x, p);
    p.lane.stage == StageOf(z.state) && p.key.Some? && p.key.value !in z.rx.dup
  }

  lemma ArrivalNotes(e: Env, y: Endpoint, x: Endpoint, p: Packet)
    requires PeerOk(e, y) && Good(e, y, x) && p in y.tx.sent && FirstArrival(x, p)
    ensures var x', k := Receive(x, e.mine, Frame(p)).x, p.key.value;
            k in AccKeys(x'.rx) && (k in x'.rx.noted <==> CanAccept(AtArrival(x, p), p.key))
  {
    hide PeerOk, Good, ReceiveBody, Frame, FrameReads, Speculate, Taking, Parse, LaneChannel, PacketFits, Elsewhere,
         Accept, AccKeys, DecodePrimary, Extends, CanAccept, AcceptOk, UpInv, QuietOk, BuffersOk, KeysDistinct,
         AcceptPanics;
    PacketKind(e, y, p);
    FrameRoundTrip(p);
    PrimaryRead(p);
    SpeculateGood(e, y, x, p);
    var z, k := Speculate(x, p.lane.chan), p.key.value;
    StageServed(e, y, z, p);
    var g := z.rx.notLocal.GlobalId(p.lane.stage, p.lane.chan).value;
    var ch := ChannelOf(p.lane.stage, p.lane.chan, g, e.mine).value;
    TakingFrom(e, y, z, p, g, ch);
    TakingParts(e, y, z, p, g, ch);
    BodyElsewhere(z, e.mine, p, g, ch);
    GoodSides(e, y, z);
    DupIsEnough(y, z, p);
    NotedAccepted(y, z);
    AcceptExactly(e, z, p.key);
    AcceptNotes(z, k);
    AcceptMarks(z, k);
    SameAccKeys(Receive(x, e.mine, Frame(p)).x.rx, Accept(z, p.key).x.rx);
  }

  lemma SameAccKeys(rx: Rx, rx': Rx)
    requires rx.accepted == rx'.accepted
    ensures AccKeys(rx) == AccKeys(rx')
  {
  }

  /// A reliable packet is lost in the very step in which it first arrives, if and only if there is no
  /// room to note its acknowledgement.
  lemma LossExactly(c: Config, run: seq<Sys>, events: seq<Event>, i: nat, side: Side, p: Packet)
    requires c.Ok() && IsRun(c, run, events) && i < |events| && events[i] == Event(side, Takes(Frame(p)))
    requires Unwrapped(run[i + 1]) && p in run[i].At(side.Other()).x.tx.sent && FirstArrival(run[i].At(side).x, p)
    ensures var x, x', k := run[i].At(side).x, run[i + 1].At(side).x, p.key.value;
            k in AccKeys(x'.rx) && (k in x'.rx.noted <==> CanAccept(AtArrival(x, p), p.key))
  {
    hide SysInv, Sound, PeerOk, Good, Receive, Frame, FirstArrival, AccKeys, CanAccept, Speculate, NodeOk, RecvInv,
         AcceptOk, QuietOk, KeysDistinct, EnvOk;
    assert run[i + 1] == Next(c, run[i], events[i]);
    RunSound(c, run, events, i);
    StepKeeps(c, run[i], events[i]);
    Before(run[i], run[i + 1]);
    UnwrappedSound(c, run[i]);
    SoundSide(c, run[i], side);
    Running(c.At(side), run[i].At(side), run[i].At(side.Other()), events[i].action);
    UpIsGood(c, run[i], side);
    ArrivalNotes(c.EnvOf(side), run[i].At(side.Other()).x, run[i].At(side).x, p);
  }

  lemma SpeculateNotes(x: Endpoint, chan: nat)
    ensures Speculate(x, chan).rx.noted == x.rx.noted && AccKeys(Speculate(x, chan).rx) == AccKeys(x.rx)
  {
  }

  /// A key is noted in the step in which it is accepted or never.
  lemma ReceiveNotes(e: Env, y: Endpoint, x: Endpoint, p: Packet, k: Key)
    requires PeerOk(e, y) && Good(e, y, x) && p in y.tx.sent && k in AccKeys(x.rx) && k !in x.rx.noted
    ensures k !in Receive(x, e.mine, Frame(p)).x.rx.noted
  {
    hide PeerOk, Good, ReceiveBody, Frame, FrameReads, Speculate, Taking, Parse, LaneChannel, PacketFits, Elsewhere,
         Accept, AccKeys, DecodePrimary, Extends, SameReceipts;
    PacketKind(e, y, p);
    FrameRoundTrip(p);
    PrimaryRead(p);
    SpeculateGood(e, y, x, p);
    SpeculateNotes(x, p.lane.chan);
    var z := Speculate(x, p.lane.chan);
    var stage := StageOf(z.state);
    var g := z.rx.notLocal.GlobalId(stage, p.lane.chan);
    if g.Some? && ChannelOf(stage, p.lane.chan, g.value, e.mine).Some? {
      var ch := ChannelOf(stage, p.lane.chan, g.value, e.mine).value;
      TakingFrom(e, y, z, p, g.value, ch);
      TakingParts(e, y, z, p, g.value, ch);
      BodyElsewhere(z, e.mine, p, g.value, ch);
      AcceptGood(e, y, z, p);
      if p.key.Some? {
        AcceptNotes(z, p.key.value);
      } else {
        AcceptElsewhere(z, p.key, p.lane);
      }
    }
  }

  lemma ActNotes(e: Env, y: Endpoint, n: Node, peer: Node, a: Action, k: Key)
    requires PeerOk(e, y) && Good(e, y, n.x) && peer.x == y && !a.Opens? && Enabled(e.mine, n, peer, a)
    requires k in AccKeys(n.x.rx) && k !in n.x.rx.noted
    ensures k !in Act(e.mine, n, a).x.rx.noted
  {
    hide PeerOk, Good, Receive, Tick, AppSend, AppChannel, Enumerates, AccKeys, Frame;
    match a
    case Takes(datagram) =>
      var p := OnTheWire(e, y, datagram);
      ReceiveNotes(e, y, n.x, p, k);
    case Ticks(delta) => TicksSameRx(n.x, delta);
    case Sends(global, payload) => SendsSameRx(n.x, e.mine, global, payload);
  }

  lemma FreshAccepts(n: Node)
    requires CountsOk(n) && n.phase.Fresh?
    ensures AccKeys(n.x.rx) == {}
  {
  }

  lemma StepNotes(c: Config, s: Sys, side: Side, a: Action, k: Key)
    requires c.Ok() && SysInv(c, s) && Sound(c, s) && Enabled(c.At(side), s.At(side), s.At(side.Other()), a)
    requires k in AccKeys(s.At(side).x.rx) && k !in s.At(side).x.rx.noted
    ensures k !in Act(c.At(side), s.At(side), a).x.rx.noted
  {
    hide Sound, Act, PeerOk, Good, NodeOk, RecvInv, AcceptOk, QuietOk, KeysDistinct, EnvOk, AccKeys, Enumerates,
         AppChannel, Counted, Tallied;
    if a.Opens? {
      FreshAccepts(s.At(side));
    } else {
      SoundSide(c, s, side);
      UpIsGood(c, s, side);
      ActNotes(c.EnvOf(side), s.At(side.Other()).x, s.At(side), s.At(side.Other()), a, k);
    }
  }

  lemma AcceptedStays(c: Config, s: Sys, side: Side, a: Action)
    requires c.Ok() && Sound(c, s) && SysInv(c, s) && Enabled(c.At(side), s.At(side), s.At(side.Other()), a)
    requires !Act(c.At(side), s.At(side), a).x.tx.wrapped
    ensures AccKeys(s.At(side).x.rx) <= AccKeys(Act(c.At(side), s.At(side), a).x.rx)
  {
    hide Sound, Act, PeerOk, Good, NodeOk, RecvInv, AcceptOk, QuietOk, KeysDistinct, EnvOk, AccKeys, Enumerates,
         AppChannel, Counted, Tallied, Extends;
    if a.Opens? {
      FreshAccepts(s.At(side));
    } else {
      SoundSide(c, s, side);
      UpIsGood(c, s, side);
      UpActs(c.EnvOf(side), s.At(side.Other()), s.At(side), a);
      ExtendsAccepted(s.At(side).x, Act(c.At(side), s.At(side), a).x);
    }
  }

  lemma ExtendsAccepted(x: Endpoint, x': Endpoint)
    requires Extends(x, x')
    ensures AccKeys(x.rx) <= AccKeys(x'.rx)
  {
    AccKeysGrow(x.rx, x'.rx);
  }

  lemma {:induction false} NeverNoted(c: Config, run: seq<Sys>, events: seq<Event>, i: nat, j: nat, side: Side, k: Key)
    requires c.Ok() && IsRun(c, run, events) && i <= j < |run| && Unwrapped(run[j])
    requires k in AccKeys(run[i].At(side).x.rx) && k !in run[i].At(side).x.rx.noted
    ensures k in AccKeys(run[j].At(side).x.rx) && k !in run[j].At(side).x.rx.noted
    decreases j - i
  {
    hide SysInv, Sound, Enabled, Act, Unwrapped, Forward, AccKeys;
    if i < j {
      var e := events[j - 1];
      assert run[j] == Next(c, run[j - 1], e);
      RunSound(c, run, events, j - 1);
      StepKeeps(c, run[j - 1], e);
      Before(run[j - 1], run[j]);
      UnwrappedSound(c, run[j - 1]);
      NeverNoted(c, run, events, i, j - 1, side, k);
      if e.side == side {
        StillUnwrapped(run[j], side);
        StepNotes(c, run[j - 1], side, e.action, k);
        AcceptedStays(c, run[j - 1], side, e.action);
      }
    }
  }

  lemma NeverReleased(c: Config, run: seq<Sys>, events: seq<Event>, j: nat, side: Side, k: Key)
    requires c.Ok() && IsRun(c, run, events) && j < |run| && Unwrapped(run[j])
    ensures k !in run[j].At(side).x.rx.noted ==> k !in run[j].At(side.Other()).x.tx.released
  {
    hide IsRun, Facing, Unwrapped, Sound, SelfInv, RecvInv, AcceptOk;
    Reached(c, run, events, j, side);
    SidePair(c, run[j], side);
    RecvKeys(c.At(side.Other()), run[j].At(side).x, run[j].At(side.Other()).x);
  }

  /// A packet marked as a duplicate without being noted stays so: its copies are refused, and its key
  /// is never released by an acknowledgement.
  lemma LostForGood(c: Config, run: seq<Sys>, events: seq<Event>, i: nat, j: nat, side: Side, k: Key)
    requires c.Ok() && IsRun(c, run, events) && i <= j < |run| && Unwrapped(run[j])
    requires k in AccKeys(run[i].At(side).x.rx) && k !in run[i].At(side).x.rx.noted
    ensures k in AccKeys(run[j].At(side).x.rx) && k !in run[j].At(side).x.rx.noted
    ensures k !in run[j].At(side.Other()).x.tx.released
  {
    hide IsRun, Unwrapped, AccKeys;
    NeverNoted(c, run, events, i, j, side, k);
    NeverReleased(c, run, events, j, side, k);
  }

  lemma NotedTurn(sent: seq<Packet>, x: Endpoint, p: Packet)
    requires NonePushedElse(sent, x, p.lane) && OrdersDistinct(sent) && p in sent
    requires p.seg.None? && p.order.Some? && p.key.Some? && p.key.value !in x.rx.noted
    ensures p.order.value !in Lookup(x.rx.pushed, p.lane)
  {
    hide OrdersDistinct;
    if p.order.value in Lookup(x.rx.pushed, p.lane) {
      assert OrderNoted(sent, x, p.lane, p.order.value);
      var q :| q in sent && NotedOn(p.lane, x.rx.noted)(q) && q.order == Some(p.order.value);
      SameTurnSamePacket(sent, p, q);
    }
  }

  lemma NotPushedNotHandled(y: Endpoint, x: Endpoint, lane: Lane, o: nat)
    requires LaneOk(y, x, lane, true) && Clean(y.tx, lane) && o !in Lookup(x.rx.pushed, lane)
    ensures |Lookup(x.rx.handled, lane)| <= o
  {
  }

  lemma SettledPushed(sent: seq<Packet>, x: Endpoint, lane: Lane, ch: Channel)
    requires SettledOn(sent, x, lane, ch) && ch.IsOrdered()
    ensures NonePushedElse(sent, x, lane)
  {
    hide NonePushedElse, AllPushed;
  }

  lemma StalledAt(e: Env, y: Endpoint, x: Endpoint, name: Bytes, p: Packet)
    requires PeerOk(e, y) && Good(e, y, x) && x.state.Transfer? && name in e.mine.names && name in e.theirs.names
    requires AppName(name) && Short(Outbox(e.theirs, y, name)) && SettledOk(e.mine, y, x)
    requires e.mine.ById(e.mine.names[name]).Some?
    requires var ch := e.mine.ById(e.mine.names[name]).value; ch.IsReliable() && ch.IsOrdered()
    requires p in y.tx.sent && p.lane.stage.Tra? && y.local.LocalId(Tra, e.theirs.names[name]) == Some(p.lane.chan)
    requires p.key.Some? && p.key.value !in x.rx.noted
    ensures p.order.Some? && p.order.value !in Lookup(x.rx.pushed, p.lane)
    ensures |Inbox(e.mine, x, name)| <= p.order.value
  {
    hide PeerOk, Good, SettledOk, SettledOn, Inbox, Outbox, Behind, Clean, LaneOk, LaneChannel, NonePushedElse,
         OrdersDistinct, KeysDistinct, BareOk, PacketOk;
    var c := LaneOfName(e, y, x, name);
    ShortIsClean(e, y, p.lane);
    SettledAt(e.mine, y, x, c);
    OrderedLaneOk(e, y, x, c);
    CleanPacket(y, p);
    KindOfLane(e, y, x, p, c);
    PeerParts(e, y, p);
    SettledPushed(y.tx.sent, x, p.lane, e.mine.ById(e.mine.names[name]).value);
    NotedTurn(y.tx.sent, x, p);
    NotPushedNotHandled(y, x, p.lane, p.order.value);
  }

  lemma AcceptedTransfer(y: Endpoint, x: Endpoint, p: Packet)
    requires AcceptOk(y, x) && KeysDistinct(y.tx.sent) && p in y.tx.sent && p.lane.stage.Tra? && p.key.Some?
    requires p.key.value in AccKeys(x.rx)
    ensures x.state.Transfer?
  {
    hide KeysDistinct, FromPeer;
    var a :| a in x.rx.accepted && a.key == p.key.value;
    KeyStage(y, x, p, a);
  }

  /// A lost packet of a reliable, ordered channel stalls the channel for good: its order never reaches
  /// the orderer, and the other application is never given anything from its place on.
  lemma StalledForGood(c: Config, run: seq<Sys>, events: seq<Event>, i: nat, j: nat, side: Side, name: Bytes, p: Packet)
    requires c.Ok() && IsRun(c, run, events) && i <= j < |run| && Unwrapped(run[j])
    requires name in c.left.names && name in c.right.names && AppName(name)
    requires c.At(side).ById(c.At(side).names[name]).Some?
    requires var ch := c.At(side).ById(c.At(side).names[name]).value; ch.IsReliable() && ch.IsOrdered()
    requires Short(Outbox(c.At(side.Other()), run[j].At(side.Other()).x, name))
    requires var y := run[j].At(side.Other()).x;
             && p in y.tx.sent && p.lane.stage.Tra? && p.key.Some?
             && y.local.LocalId(Tra, c.At(side.Other()).names[name]) == Some(p.lane.chan)
    requires p.key.value in AccKeys(run[i].At(side).x.rx) && p.key.value !in run[i].At(side).x.rx.noted
    ensures p.order.Some? && p.order.value !in Lookup(run[j].At(side).x.rx.pushed, p.lane)
    ensures |Inbox(c.At(side), run[j].At(side).x, name)| <= p.order.value
  {
    hide IsRun, Facing, Unwrapped, Sound, PeerOk, Good, SettledOk, Inbox, Outbox, RecvInv, AcceptOk, QuietOk,
         KeysDistinct, NodeOk, EnvOk, AccKeys;
    var x, y := run[j].At(side).x, run[j].At(side.Other()).x;
    LostForGood(c, run, events, i, j, side, p.key.value);
    Reached(c, run, events, j, side);
    RunSettled(c, run, events, j, side);
    SoundSide(c, run[j], side);
    AcceptedTransfer(y, x, p);
    InTransfer(c.EnvOf(side), y, x);
    StalledAt(c.EnvOf(side), y, x, name, p);
  }

  /// Noted packets do not account for a packet that is not.
  lemma {:induction false} OneUnnoted(sent: seq<Packet>, lane: Lane, keys: set<Key>, p: Packet)
    requires p in sent && p.lane == lane && p.seg.None? && !NotedOn(lane, keys)(p)
    ensures Payloads(sent, NotedOn(lane, keys)) + multiset{p.payload} <= Payloads(sent, WholeOn(lane))
  {
    var n := |sent| - 1;
    if sent[n] == p {
      FewerPayloads(sent[..n], NotedOn(lane, keys), WholeOn(lane));
    } else {
      OneUnnoted(sent[..n], lane, keys, p);
    }
  }

  lemma MissingAt(e: Env, y: Endpoint, x: Endpoint, name: Bytes, p: Packet)
    requires PeerOk(e, y) && Good(e, y, x) && x.state.Transfer? && name in e.mine.names && name in e.theirs.names
    requires AppName(name) && Short(Outbox(e.theirs, y, name)) && SettledOk(e.mine, y, x)
    requires e.mine.ById(e.mine.names[name]).Some? && Tallied(y.tx.sent, y.tx.submitted)
    requires var ch := e.mine.ById(e.mine.names[name]).value; ch.IsReliable() && !ch.IsOrdered()
    requires p in y.tx.sent && p.lane.stage.Tra? && y.local.LocalId(Tra, e.theirs.names[name]) == Some(p.lane.chan)
    requires p.key.Some? && p.key.value !in x.rx.noted
    ensures multiset(Inbox(e.mine, x, name)) + multiset{p.payload} <= multiset(Outbox(e.theirs, y, name))
  {
    hide PeerOk, Good, SettledOk, Inbox, Outbox, Behind, Clean, Payloads;
    var c := LaneOfName(e, y, x, name);
    ShortIsClean(e, y, p.lane);
    SettledAt(e.mine, y, x, c);
    CleanPacket(y, p);
    OneUnnoted(y.tx.sent, p.lane, x.rx.noted, p);
  }

  /// On a reliable, unordered channel the payload of a lost packet stays missing: what the other
  /// application is given never accounts for it.
  lemma MissingForGood(c: Config, run: seq<Sys>, events: seq<Event>, i: nat, j: nat, side: Side, name: Bytes, p: Packet)
    requires c.Ok() && IsRun(c, run, events) && i <= j < |run| && Unwrapped(run[j])
    requires name in c.left.names && name in c.right.names && AppName(name)
    requires c.At(side).ById(c.At(side).names[name]).Some?
    requires var ch := c.At(side).ById(c.At(side).names[name]).value; ch.IsReliable() && !ch.IsOrdered()
    requires Short(Outbox(c.At(side.Other()), run[j].At(side.Other()).x, name))
    requires var y := run[j].At(side.Other()).x;
             && p in y.tx.sent && p.lane.stage.Tra? && p.key.Some?
             && y.local.LocalId(Tra, c.At(side.Other()).names[name]) == Some(p.lane.chan)
    requires p.key.value in AccKeys(run[i].At(side).x.rx) && p.key.value !in run[i].At(side).x.rx.noted
    ensures multiset(Inbox(c.At(side), run[j].At(side).x, name)) + multiset{p.payload}
         <= multiset(Outbox(c.At(side.Other()), run[j].At(side.Other()).x, name))
  {
    hide IsRun, Facing, Unwrapped, Sound, PeerOk, Good, SettledOk, Inbox, Outbox, RecvInv, AcceptOk, QuietOk,
         KeysDistinct, NodeOk, EnvOk, AccKeys, Tallied, Counted;
    var x, y := run[j].At(side).x, run[j].At(side.Other()).x;
    LostForGood(c, run, events, i, j, side, p.key.value);
    Reached(c, run, events, j, side);
    RunSound(c, run, events, j);
    RunSettled(c, run, events, j, side);
    SoundSide(c, run[j], side);
    AcceptedTransfer(y, x, p);
    InTransfer(c.EnvOf(side), y, x);
    MissingAt(c.EnvOf(side), y, x, name, p);
  }

  // ---- Orders used up by sends that failed ----

  /// The order was used on the lane, and no packet has it.
  ghost predicate UsedUp(tx: Tx, lane: Lane, o: nat) {
    o < |Lookup(tx.submitted, lane)| && forall p :: p in tx.sent && p.lane == lane ==> p.order != Some(o)
  }

  ghost predicate UsedBy(prov: Provider, y: Endpoint, name: Bytes, o: nat)
    requires name in prov.names
  {
    var id := y.local.LocalId(Tra, prov.names[name]);
    id.Some? && UsedUp(y.tx, Lane(Tra, id.value), o)
  }

  lemma {:induction false} SegmentsOrder(tx: Tx, ch: Channel, lane: Lane, order: Option<nat>, key: nat,
        parts: seq<Bytes>, i: nat)
    requires i <= |parts|
    ensures forall p :: p in SendSegments(tx, ch, lane, order, key, parts, i).tx.sent ==>
              p in tx.sent || (p.lane == lane && p.order == order)
    decreases |parts| - i
  {
    hide SendReal;
    if i < |parts| {
      var p := Packet(lane, Some(SegmentMeta(key, i, |parts|)), order, None, parts[i]);
      SendRealShape(tx, ch, p);
      var r := SendReal(tx, ch, p);
      if r.out.Fine? {
        SegmentsOrder(r.tx, ch, lane, order, key, parts, i + 1);
      }
    }
  }

  /// Sending gives its packets the next order.
  lemma SendsNext(tx: Tx, ch: Channel, lane: Lane, payload: Bytes)
    requires ch.IsOrdered() ==> tx.orders.Has(lane)
    ensures var order := if ch.IsOrdered() then Some(tx.orders.At(lane)) else None;
            forall p :: p in SendPacket(tx, ch, lane, payload).tx.sent ==>
              p in tx.sent || (p.lane == lane && p.order == order)
  {
    hide SendReal, SendSegments, Chunks;
    var t := Submit(tx, ch, lane, payload);
    var order := if ch.IsOrdered() then Some(tx.orders.At(lane)) else None;
    if |payload| > MAX_NON_SEGMENTED_PAYLOAD {
      SegmentsOrder(OpenMessage(t, lane, payload), ch, lane, order, t.segmentKeys, Chunks(payload), 0);
    } else {
      SendRealShape(t, ch, Packet(lane, None, order, None, payload));
    }
  }

  lemma SendKeepsUsed(tx: Tx, ch: Channel, lane: Lane, payload: Bytes, l: Lane, o: nat)
    requires UsedUp(tx, l, o)
    requires ch.IsOrdered() && tx.orders.Has(lane) ==> tx.orders.At(lane) == |Lookup(tx.submitted, lane)|
    ensures UsedUp(SendPacket(tx, ch, lane, payload).tx, l, o)
  {
    hide SendPacket;
    SendPacketGrows(tx, ch, lane, payload);
    if ch.IsOrdered() ==> tx.orders.Has(lane) {
      SendsNext(tx, ch, lane, payload);
    } else {
      NoCounter(tx, ch, lane, payload);
    }
  }

  lemma NoCounter(tx: Tx, ch: Channel, lane: Lane, payload: Bytes)
    requires ch.IsOrdered() && !tx.orders.Has(lane)
    ensures SendPacket(tx, ch, lane, payload).tx == tx
  {
  }

  lemma CounterAt(prov: Provider, x: Endpoint, lane: Lane)
    requires SelfInv(prov, x) && LaneChannel(prov, x.local, lane).Some?
    requires LaneChannel(prov, x.local, lane).value.IsOrdered()
    requires x.tx.orders.Has(lane)
    ensures x.tx.orders.At(lane) == |Lookup(x.tx.submitted, lane)|
  {
    hide BufferOk, AnnouncedOk, AnnouncedAll, StagesOk, PacketOk, KeysDistinct, OrdersDistinct, OnWire, SlotsOk,
         LaneChannel;
  }

  lemma AppSendKeepsUsed(prov: Provider, x: Endpoint, g: nat, payload: Bytes, l: Lane, o: nat)
    requires prov.WellFormed() && UpInv(prov, x) && AppChannel(prov, g) && UsedUp(x.tx, l, o)
    ensures UsedUp(AppSend(x, prov, g, payload).x.tx, l, o) && AppSend(x, prov, g, payload).x.local == x.local
  {
    hide UpInv, SelfInv, SendPacket, UsedUp, AppChannel, IsAckLane, LaneChannel;
    AppLane(Env(prov, prov), x, g);
    UpIsSelf(prov, x);
    var id := x.local.LocalId(StageOf(x.state), g);
    if id.Some? && x.state.Transfer? && prov.ById(g).Some? {
      var ch, lane := prov.ById(g).value, Lane(Tra, id.value);
      if ch.IsOrdered() && x.tx.orders.Has(lane) {
        CounterAt(prov, x, lane);
      }
      SendKeepsUsed(x.tx, ch, lane, payload, l, o);
    }
  }

  lemma ReactsKeepUsed(x: Endpoint, x': Endpoint, l: Lane, o: nat)
    requires Reacts(x, x') && !IsAckLane(x.local, l) && UsedUp(x.tx, l, o)
    ensures UsedUp(x'.tx, l, o)
  {
    hide Forward, IsAckLane;
  }

  lemma ReactsLocal(x: Endpoint, x': Endpoint)
    requires Reacts(x, x')
    ensures x'.local == x.local
  {
    hide Forward, IsAckLane;
  }

  lemma ActKeepsUsed(prov: Provider, n: Node, peer: Node, a: Action, name: Bytes, o: nat)
    requires prov.WellFormed() && NodeOk(prov, n) && CountsOk(n) && Enabled(prov, n, peer, a)
    requires name in prov.names && AppName(name) && UsedBy(prov, n.x, name, o)
    ensures UsedBy(prov, Act(prov, n, a).x, name, o)
  {
    hide SelfInv, UpInv, Receive, Tick, AppSend, Initialize, Reacts, Counted, Tallied, Enumerates, AppChannel, UsedUp,
         Untouched, IsAckLane;
    var lane := Lane(Tra, n.x.local.LocalId(Tra, prov.names[name]).value);
    NotForAcks(prov, n.x, name);
    match a
    case Opens(_) => NothingUsed(n.x, lane, o);
    case Takes(datagram) =>
      ReceiveReacts(n.x, prov, datagram);
      ReactsLocal(n.x, Receive(n.x, prov, datagram).x);
      ReactsKeepUsed(n.x, Receive(n.x, prov, datagram).x, lane, o);
    case Ticks(delta) =>
      TickReacts(n.x, delta);
      ReactsLocal(n.x, Tick(n.x, delta).x);
      ReactsKeepUsed(n.x, Tick(n.x, delta).x, lane, o);
    case Sends(global, payload) => AppSendKeepsUsed(prov, n.x, global, payload, lane, o);
  }

  lemma NothingUsed(x: Endpoint, lane: Lane, o: nat)
    requires x == NewEndpoint()
    ensures !UsedUp(x.tx, lane, o)
  {
  }

  lemma StepKeepsUsed(c: Config, s: Sys, e: Event, side: Side, name: Bytes, o: nat)
    requires c.Ok() && SysInv(c, s) && Unwrapped(s)
    requires Enabled(c.At(e.side), s.At(e.side), s.At(e.side.Other()), e.action)
    requires name in c.At(side).names && AppName(name) && UsedBy(c.At(side), s.At(side).x, name, o)
    ensures UsedBy(c.At(side), Next(c, s, e).At(side).x, name, o)
  {
    hide SysInv, Enabled, Act, Unwrapped, NodeOk, CountsOk, UsedBy, AppName;
    if e.side == side {
      SideOk(c, s, side);
      ActKeepsUsed(c.At(side), s.At(side), s.At(side.Other()), e.action, name, o);
    }
  }

  /// An order that was used up without a packet stays without one.
  lemma {:induction false} UsedForGood(c: Config, run: seq<Sys>, events: seq<Event>, i: nat, j: nat, side: Side,
        name: Bytes, o: nat)
    requires c.Ok() && IsRun(c, run, events) && i <= j < |run| && Unwrapped(run[j])
    requires name in c.At(side).names && AppName(name) && UsedBy(c.At(side), run[i].At(side).x, name, o)
    ensures UsedBy(c.At(side), run[j].At(side).x, name, o)
    decreases j - i
  {
    hide SysInv, Enabled, Next, Unwrapped, Forward, UsedBy, AppName;
    if i < j {
      assert run[j] == Next(c, run[j - 1], events[j - 1]);
      RunSound(c, run, events, j - 1);
      StepKeeps(c, run[j - 1], events[j - 1]);
      Before(run[j - 1], run[j]);
      UsedForGood(c, run, events, i, j - 1, side, name, o);
      StepKeepsUsed(c, run[j - 1], events[j - 1], side, name, o);
    }
  }

  /// A send that a full resender refuses uses up the next order of its channel.
  lemma RefusedUses(prov: Provider, x: Endpoint, name: Bytes, payload: Bytes)
    requires prov.WellFormed() && UpInv(prov, x) && x.state.Transfer? && name in prov.names && AppName(name)
    requires AppChannel(prov, prov.names[name]) && prov.ById(prov.names[name]).Some?
    requires var ch := prov.ById(prov.names[name]).value; ch.IsReliable() && ch.IsOrdered()
    requires |payload| <= MAX_NON_SEGMENTED_PAYLOAD && x.tx.resender.Full()
    ensures var r := AppSend(x, prov, prov.names[name], payload);
            r.out == Fail(ResenderFull) && UsedBy(prov, r.x, name, |Outbox(prov, x, name)|)
  {
    hide UpInv, SelfInv, AppChannel, IsAckLane, LaneChannel, SendPacket, UsedUp;
    AppLane(Env(prov, prov), x, prov.names[name]);
    CanSend(Env(prov, prov), x, prov.names[name]);
    UpIsSelf(prov, x);
    var lane := Lane(Tra, x.local.LocalId(Tra, prov.names[name]).value);
    RefusedShape(x.tx, prov.ById(prov.names[name]).value, lane, payload);
    RefusedOrders(prov, x, lane, payload);
  }

  lemma RefusedShape(tx: Tx, ch: Channel, lane: Lane, payload: Bytes)
    requires ch.IsReliable() && ch.IsOrdered() && tx.orders.Has(lane) && lane.chan < NULL_ID
    requires |payload| <= MAX_NON_SEGMENTED_PAYLOAD && tx.resender.Full()
    ensures var r := SendPacket(tx, ch, lane, payload);
            r.out == Fail(ResenderFull) && r.tx.sent == tx.sent && r.tx.submitted == Log(tx.submitted, lane, payload)
  {
    hide Frame;
  }

  lemma RefusedOrders(prov: Provider, x: Endpoint, lane: Lane, payload: Bytes)
    requires SelfInv(prov, x)
    ensures forall t: Tx {:trigger UsedUp(t, lane, |Lookup(x.tx.submitted, lane)|)} ::
              t.sent == x.tx.sent && t.submitted == Log(x.tx.submitted, lane, payload) ==>
                UsedUp(t, lane, |Lookup(x.tx.submitted, lane)|)
  {
    hide BufferOk, AnnouncedOk, AnnouncedAll, StagesOk, KeysDistinct, OrdersDistinct, OnWire, SlotsOk, CountersOk,
         LaneChannel, AckPayload, SegmentMatches;
    forall p | p in x.tx.sent && p.lane == lane && p.order.Some?
      ensures p.order.value < |Lookup(x.tx.submitted, lane)|
    {
      assert PacketOk(prov, x.local, x.tx, x.rx.noted, p);
    }
  }

  lemma HandledSent(y: Endpoint, x: Endpoint, lane: Lane, o: nat)
    requires LaneOk(y, x, lane, true) && Clean(y.tx, lane) && o < |Lookup(x.rx.handled, lane)|
    ensures exists p :: p in y.tx.sent && p.lane == lane && p.order == Some(o)
  {
    assert o in Lookup(x.rx.pushed, lane);
    assert OrderAccepted(y, x, lane, o);
  }

  lemma UnusedNotHandled(y: Endpoint, x: Endpoint, lane: Lane, o: nat)
    requires LaneOk(y, x, lane, true) && Clean(y.tx, lane) && UsedUp(y.tx, lane, o)
    ensures |Lookup(x.rx.handled, lane)| <= o
  {
    if o < |Lookup(x.rx.handled, lane)| {
      HandledSent(y, x, lane, o);
    }
  }

  lemma UsedStallsAt(e: Env, y: Endpoint, x: Endpoint, name: Bytes, o: nat)
    requires PeerOk(e, y) && Good(e, y, x) && x.state.Transfer? && name in e.mine.names && name in e.theirs.names
    requires AppName(name) && Short(Outbox(e.theirs, y, name)) && UsedBy(e.theirs, y, name, o)
    requires e.mine.ById(e.mine.names[name]).Some?
    requires var ch := e.mine.ById(e.mine.names[name]).value; ch.IsReliable() && ch.IsOrdered()
    ensures |Inbox(e.mine, x, name)| <= o
  {
    hide PeerOk, Good, Inbox, Outbox, Behind, Clean, LaneOk, UsedUp;
    var c := LaneOfName(e, y, x, name);
    ShortIsClean(e, y, Lane(Tra, c));
    OrderedLaneOk(e, y, x, c);
    UnusedNotHandled(y, x, Lane(Tra, c), o);
  }

  lemma EmptyBefore(e: Env, y: Endpoint, x: Endpoint, name: Bytes)
    requires Facing(e, y, x) && x.state.Registration? && name in e.mine.names
    ensures Inbox(e.mine, x, name) == []
  {
    hide PeerOk, RecvInv, UpInv, Untouched, Inbox;
    if Untouched(x) {
      UntouchedEmpty(e, x, name);
    } else if Inbox(e.mine, x, name) != [] {
      var c := InboxLane(e, y, x, name);
    }
  }

  /// A send refused for a full resender on a reliable, ordered channel stalls the channel for good: its
  /// order is used up, and the other application is never given anything from its place on.
  lemma RefusedStalls(c: Config, run: seq<Sys>, events: seq<Event>, i: nat, j: nat, side: Side, name: Bytes, o: nat)
    requires c.Ok() && IsRun(c, run, events) && i <= j < |run| && Unwrapped(run[j])
    requires name in c.left.names && name in c.right.names && AppName(name)
    requires c.At(side).ById(c.At(side).names[name]).Some?
    requires var ch := c.At(side).ById(c.At(side).names[name]).value; ch.IsReliable() && ch.IsOrdered()
    requires Short(Outbox(c.At(side.Other()), run[j].At(side.Other()).x, name))
    requires UsedBy(c.At(side.Other()), run[i].At(side.Other()).x, name, o)
    ensures UsedBy(c.At(side.Other()), run[j].At(side.Other()).x, name, o)
    ensures |Inbox(c.At(side), run[j].At(side).x, name)| <= o
  {
    hide IsRun, Facing, Unwrapped, Sound, PeerOk, Good, Inbox, Outbox, UsedBy;
    var x, y := run[j].At(side).x, run[j].At(side.Other()).x;
    UsedForGood(c, run, events, i, j, side.Other(), name, o);
    Reached(c, run, events, j, side);
    if x.state.Transfer? {
      InTransfer(c.EnvOf(side), y, x);
      UsedStallsAt(c.EnvOf(side), y, x, name, o);
    } else {
      EmptyBefore(c.EnvOf(side), y, x, name);
    }
  }
}
