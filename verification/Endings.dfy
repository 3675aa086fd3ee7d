/** Runs from the start that end in a panic: replays, a second header strip, a timer, the capacities. */
module Endings {
  import opened Base
  import opened SlotKeys
  import opened SlotMaps
  import opened Framing
  import opened Channels
  import opened Endpoints
  import opened Sending
  import opened Counting
  import opened Invariants
  import opened Receiving
  import opened Delivering
  import opened Arriving
  import opened Opening
  import opened Systems
  import opened Guarantees
  import opened Protocol
  import opened Panics
  import opened Progress
  import opened Capacities
  import opened Possibility
  import opened Arrivals
  import opened FirstRuns
  import O = Ordering
  import R = Resend
  import J = Joining

  // ---- Replays ----

  lemma GoneBy(e: Env, y: Endpoint, x: Endpoint, name: Bytes, payload: Bytes, p: Packet)
    requires name in e.mine.names && e.mine.names[name] < |e.mine.channels| && Underway(e, y, x, name, payload, p)
    requires var ch := e.mine.channels[e.mine.names[name]];
             && ch.IsOrdered() && !ch.IsReliable() && ch.capacity.value < USIZE
             && WindowOf(x, p.lane) == Some(O.Window(1, map[], ch.capacity.value))
    requires x.state.Transfer?
    ensures Stale(y, x, p) && !WindowOf(x, p.lane).value.Bursts(p.order.value)
  {
    hide Payload, Frame;
  }

  /// On every channel that is ordered and not reliable, the first payload delivered meets what the
  /// panic after two replays needs: its order has gone by, and its datagram is still on the wire.
  lemma ReplaysPossible(c: Config, side: Side, name: Bytes, payload: Bytes)
      returns (run: seq<Sys>, events: seq<Event>, p: Packet)
    requires Roomy(c) && name in c.At(side).names && AppName(name) && |payload| <= MAX_NON_SEGMENTED_PAYLOAD
    requires c.At(side).names[name] < |c.At(side).channels|
    requires var ch := c.At(side).channels[c.At(side).names[name]]; ch.IsOrdered() && !ch.IsReliable()
    ensures IsRun(c, run, events)
    ensures var s := run[|events|];
            && Unwrapped(s) && Exchanged(c, s, side, name, payload)
            && Stale(s.At(side.Other()).x, s.At(side).x, p) && WindowOf(s.At(side).x, p.lane).Some?
            && !WindowOf(s.At(side).x, p.lane).value.Bursts(p.order.value)
  {
    ChannelRoom(c, side, name);
    hide Roomy, Exchanged, Underway, Unwrapped, O.Window.Bursts, Stale, AppName;
    var s;
    run, events, s, p := FirstAtPeer(c, side, name, payload);
    hide IsRun;
    ExchangedParts(c, s, side, name, payload);
    GoneBy(c.EnvOf(side), s.At(side.Other()).x, s.At(side).x, name, payload, p);
  }

  lemma ExchangedParts(c: Config, s: Sys, side: Side, name: Bytes, payload: Bytes)
    requires Exchanged(c, s, side, name, payload)
    ensures s.At(side).phase.Up? && s.At(side).x.state.Transfer?
  {
  }

  /// So on every such channel the network can end the receiver after a single payload.
  lemma ReplaysHappen(c: Config, side: Side, name: Bytes, payload: Bytes)
      returns (run: seq<Sys>, events: seq<Event>)
    requires Roomy(c) && name in c.At(side).names && AppName(name) && |payload| <= MAX_NON_SEGMENTED_PAYLOAD
    requires c.At(side).names[name] < |c.At(side).channels|
    requires var ch := c.At(side).channels[c.At(side).names[name]]; ch.IsOrdered() && !ch.IsReliable()
    ensures IsRun(c, run, events) && Unwrapped(run[|events|]) && run[|events|].At(side).phase.Panicked?
  {
    RoomyOk(c);
    hide Roomy, Exchanged, Unwrapped, O.Window.Bursts, Stale, Frame, AppName, Config.Ok;
    var run0, events0, p := ReplaysPossible(c, side, name, payload);
    RunLength(c, run0, events0);
    hide IsRun;
    ExchangedParts(c, run0[|events0|], side, name, payload);
    TwoReplaysPanic(c, run0, events0, side, p);
    var e := Event(side, Takes(Frame(p)));
    events := events0 + [e] + [e];
    run :| IsRun(c, run, events) && run0 < run && Unwrapped(run[|events0| + 2])
           && run[|events0| + 2].At(side).phase.Panicked?;
  }

  // ---- Opening ----

  lemma Greedy(prov: Provider, name: Bytes)
    requires prov.WellFormed() && name in prov.names && AppName(name)
    ensures TotalAsked(prov) >= 300 + AskedFor(prov, name)
  {
    hide TotalAsked;
    TwoAsk(prov, ACK_NAME, name);
  }

  /// A reliable channel that asks for nearly all of a `usize` overflows the resender's capacity, since
  /// the acknowledgements' own channel asks for 300: opening ends at once.
  lemma OpeningHappens(c: Config, side: Side, name: Bytes) returns (run: seq<Sys>, events: seq<Event>)
    requires c.Ok() && name in c.At(side).names && AppName(name)
    requires var ch := c.At(side).ById(c.At(side).names[name]);
             ch.Some? && ch.value.IsReliable() && ch.value.reliability.value.additionalCapacity >= USIZE - 300
    ensures IsRun(c, run, events) && Unwrapped(run[|events|]) && run[|events|].At(side).phase.Panicked?
  {
    var prov := c.At(side);
    hide Provider.WellFormed, IsListing, Enumerates, Sorted, AddedCapacity, TotalAsked;
    var all := Enumeration(prov);
    SortedListing(prov, all);
    Greedy(prov, name);
    ListingTotal(prov, Sorted(prov, all));
    assert Initialize(NewEndpoint(), prov, Sorted(prov, all)) == Res(NewEndpoint(), Crash);
    var e := Event(side, Opens(all));
    hide Initialize;
    run, events := [Start(), Next(c, Start(), e)], [e];
  }

  // ---- The clock ----

  lemma SomeStored<T>(s: Slots<T>) returns (i: nat)
    requires s.Valid() && s.Len() > 0
    ensures i < |s.values| && s.values[i].Some?
  {
    LenRefines(s);
    var k :| k in s.AsMap();
    i := k.index;
  }

  lemma PutKeepsOther<T>(s: Slots<T>, v: T, i: nat)
    requires s.Valid() && i < |s.values| && s.values[i].Some?
    ensures i < |s.Put(v).values| && s.Put(v).values[i] == s.values[i]
  {
  }

  /// A packet whose clock has run for a millisecond overflows at the longest tick.
  lemma TickedOverflows(r: R.Resender, b: R.Buffered)
    requires r.slots.Valid() && Timeless(r.slots) && r.slots.Len() > 0
    ensures R.Resender(r.Update(1).slots.Put(b), r.capacity).Overflows(U32 - 1)
  {
    var i := SomeStored(r.slots);
    RetainRefines(r.slots, R.Expiry(1));
    PutKeepsOther(r.Update(1).slots, b, i);
  }

  lemma OpenedEasy(c: Config, side: Side, x: Endpoint)
    requires Roomy(c) && Opened(c.At(side), x)
    ensures Easy(x.tx) && Timeless(x.tx.resender.slots) && x.state.Registration? && x.tx.resender.slots.Len() > 0
    ensures x.tx.resender.slots.Valid()
  {
    FewChannels(c, side);
    CountedValid(x.tx);
    hide Roomy, Counted, Timeless, Announces, Slots.Valid, Slots.Len;
  }

  lemma OverflowStep(c: Config, run: seq<Sys>, events: seq<Event>, s: Sys, side: Side)
      returns (run': seq<Sys>, events': seq<Event>)
    requires Reaches(c, run, events, s) && s.At(side).phase.Up? && s.At(side).x.tx.resender.Overflows(U32 - 1)
    ensures IsRun(c, run', events') && Unwrapped(run'[|events'|]) && run'[|events'|].At(side).phase.Panicked?
    ensures events' == events + [Event(side, Ticks(U32 - 1))]
  {
    hide R.Resender.Overflows;
    var e := Event(side, Ticks(U32 - 1));
    assert Tick(s.At(side).x, U32 - 1) == Res(s.At(side).x, Crash);
    hide IsRun, Tick;
    run', events' := Extend(c, run, events, s, e);
  }

  /// The application ticks 1 ms after opening and then as long as an argument can say: the clocks of the
  /// announcements overflow, whatever the channels are.
  lemma ClockHappens(c: Config, side: Side) returns (run: seq<Sys>, events: seq<Event>)
    requires Roomy(c)
    ensures IsRun(c, run, events) && Unwrapped(run[|events|]) && run[|events|].At(side).phase.Panicked?
    ensures |events| == 3 && events[1] == Event(side, Ticks(1)) && events[2] == Event(side, Ticks(U32 - 1))
  {
    hide Roomy, Reaches, Opened, Unwrapped, Config.Ok, Flushed, Slots.Put, Slots.Valid, Slots.Len, R.Resender.Overflows,
         Easy, Timeless, R.Resender.Update;
    RoomyOk(c);
    var r0, e0 := Started(c);
    var r1, e1, s1 := OpenOne(c, r0, e0, Start(), side);
    OpenedEasy(c, side, s1.At(side).x);
    var r2, e2, s2 := FlushSide(c, r1, e1, s1, side, 1);
    var x1, x2 := s1.At(side).x, s2.At(side).x;
    var b :| x2.tx.resender.slots == x1.tx.resender.Update(1).slots.Put(b);
    TickedOverflows(x1.tx.resender, b);
    FlushedResender(x1, x2, b);
    run, events := OverflowStep(c, r2, e2, s2, side);
  }

  lemma FlushedResender(x: Endpoint, x': Endpoint, b: R.Buffered)
    requires Flushed(x, x') && x'.tx.resender.slots == x.tx.resender.Update(1).slots.Put(b)
    ensures x'.tx.resender == R.Resender(x.tx.resender.Update(1).slots.Put(b), x.tx.resender.capacity)
  {
    hide Frame, Slots.Put, Slots.RetainIf;
  }

  // ---- Segments ----

  lemma TwoChunks(payload: Bytes)
    requires MAX_NON_SEGMENTED_PAYLOAD < |payload| <= 2 * SEGMENT_PAYLOAD
    ensures Chunks(payload) == [payload[..SEGMENT_PAYLOAD], payload[SEGMENT_PAYLOAD..]]
  {
    assert Chunks(payload[SEGMENT_PAYLOAD..]) == [payload[SEGMENT_PAYLOAD..]];
  }

  /// One of the two segments of the first message of a lane.
  ghost predicate Half(ch: Channel, lane: Lane, payload: Bytes, key: nat, i: nat, p: Packet) {
    && i < |Chunks(payload)| == 2
    && p == Packet(lane, Some(SegmentMeta(key, i, 2)), if ch.IsOrdered() then Some(0) else None, p.key,
                   Chunks(payload)[i])
    && (p.key.Some? <==> ch.IsReliable())
  }

  /// Both segments are the last packets sent.
  ghost predicate BothHalves(tx: Tx, t: Tx, ch: Channel, lane: Lane, payload: Bytes) {
    && |t.sent| == |tx.sent| + 2 && !t.wrapped
    && var p, q := t.sent[|tx.sent|], t.sent[|tx.sent| + 1];
    && Frame(p) in t.wire && Frame(q) in t.wire && p.seg.Some?
    && Half(ch, lane, payload, p.seg.value.key, 0, p) && Half(ch, lane, payload, p.seg.value.key, 1, q)
  }

  lemma HalvesGoOut(tx: Tx, ch: Channel, lane: Lane, order: Option<nat>, key: nat, payload: Bytes)
    requires Easy(tx) && |tx.sent| < U32 - 2 && tx.resender.slots.Len() + 1 < tx.resender.capacity
    requires lane.chan < NULL_ID
    requires |Chunks(payload)| == 2 && order == if ch.IsOrdered() then Some(0) else None
    ensures var r := SendSegments(tx, ch, lane, order, key, Chunks(payload), 0);
            r.out.Fine? && BothHalves(tx, r.tx, ch, lane, payload)
  {
    hide Counted, Frame, SendReal, Slots.Len, Slots.Put, Slots.Valid, Chunks;
    var parts := Chunks(payload);
    var p := Packet(lane, Some(SegmentMeta(key, 0, 2)), order, None, parts[0]);
    var q := Packet(lane, Some(SegmentMeta(key, 1, 2)), order, None, parts[1]);
    RealGoesOut(tx, ch, p);
    var t := SendReal(tx, ch, p);
    RealGoesOut(t.tx, ch, q);
    var u := SendReal(t.tx, ch, q);
    PrefixIn(t.tx.wire, u.tx.wire);
    assert SendSegments(tx, ch, lane, order, key, parts, 0) == SendSegments(t.tx, ch, lane, order, key, parts, 1);
    assert SendSegments(t.tx, ch, lane, order, key, parts, 1) == SendSegments(u.tx, ch, lane, order, key, parts, 2);
  }

  lemma MessageGoesOut(tx: Tx, ch: Channel, lane: Lane, payload: Bytes)
    requires Easy(tx) && |tx.sent| < U32 - 2 && tx.resender.slots.Len() + 1 < tx.resender.capacity
    requires lane.chan < NULL_ID
    requires MAX_NON_SEGMENTED_PAYLOAD < |payload| && |Chunks(payload)| == 2 && tx.messages == []
    requires ch.IsOrdered() ==> tx.orders.Has(lane) && tx.orders.At(lane) == 0
    ensures var r := SendPacket(tx, ch, lane, payload); r.out.Fine? && BothHalves(tx, r.tx, ch, lane, payload)
  {
    hide Frame, SendSegments, Slots.Len, Chunks, SlotsCounted, OrdersCounted;
    var t := Submit(tx, ch, lane, payload);
    SubmitUpward(tx, ch, lane, payload);
    OpenUpward(t, lane, payload);
    var order := if ch.IsOrdered() then Some(0) else None;
    HalvesGoOut(OpenMessage(t, lane, payload), ch, lane, order, t.segmentKeys, payload);
  }

  /// The application of `y` sends its first message on a channel, in two segments.
  lemma SendHalves(e: Env, x: Endpoint, name: Bytes, payload: Bytes)
    requires e.mine.WellFormed() && UpInv(e.mine, x) && Easy(x.tx) && x.state.Transfer? && Calm(x)
    requires x.tx.resender.slots.Len() == 0 && name in e.mine.names && AppName(name)
    requires e.mine.ById(e.mine.names[name]).Some?
    requires MAX_NON_SEGMENTED_PAYLOAD < |payload| && |Chunks(payload)| == 2
    ensures var g := e.mine.names[name];
            var r, id := AppSend(x, e.mine, g, payload), x.local.LocalId(Tra, g);
            && r.out.Fine? && id.Some? && r.x == x.(tx := r.x.tx)
            && BothHalves(x.tx, r.x.tx, e.mine.ById(g).value, Lane(Tra, id.value), payload)
  {
    hide UpInv, SelfInv, AppChannel, IsAckLane, LaneChannel, SendPacket, Easy, Provider.WellFormed, AppName, BothHalves,
         Chunks, Slots.Len;
    NamedGlobal(e.mine, name);
    AppLane(e, x, e.mine.names[name]);
    CanSend(e, x, e.mine.names[name]);
    UpIsSelf(e.mine, x);
    var lane := Lane(Tra, x.local.LocalId(Tra, e.mine.names[name]).value);
    var ch := e.mine.ById(e.mine.names[name]).value;
    if ch.IsOrdered() {
      CounterAtZero(e.mine, x, lane);
    }
    MessageGoesOut(x.tx, ch, lane, payload);
  }

  /// A segment of the receiver's own stage, read and dealt with.
  lemma SegmentReceived(e: Env, y: Endpoint, x: Endpoint, p: Packet, g: nat, ch: Channel)
    requires PeerOk(e, y) && Good(e, y, x) && p in y.tx.sent && p.seg.Some? && Speculate(x, p.lane.chan) == x
    requires LaneReady(e.mine, x, Lane(StageOf(x.state), p.lane.chan), g, ch)
    ensures Receive(x, e.mine, Frame(p))
         == ReceiveSegment(x, e.mine, p.lane, g, ch, p.seg.value, Header(p.order, p.key), p.payload)
  {
    hide PeerOk, Good, Frame, FrameReads, Taking, DecodePrimary, Parse, LaneChannel, PacketFits, ReceiveBody, Speculate,
         ReceiveSegment;
    PacketKind(e, y, p);
    FrameRoundTrip(p);
    PrimaryRead(p);
    TakingFrom(e, y, x, p, g, ch);
    TakingParts(e, y, x, p, g, ch);
    SegmentTaken(x, e.mine, p, g, ch);
  }

  /// The duplicate check of a new key when few acknowledgements are buffered.
  lemma AcceptNew(e: Env, y: Endpoint, x: Endpoint, p: Packet)
    requires PeerOk(e, y) && Good(e, y, x) && p in y.tx.sent && |x.ack| <= 10
    requires (p.key.Some? ==> p.key.value !in x.rx.dup)
    ensures var a := Accept(x, p.key);
            && a.out.Fine? && a.x.tx == x.tx && a.x.state == x.state && SameReceipts(x, a.x)
            && |a.x.ack| <= |x.ack| + 10
            && a.x.rx.dup == x.rx.dup + if p.key.Some? then {p.key.value} else {}
  {
    hide PeerOk, Good, EncodeKey, UpInv, TableOk;
    GoodTable(e, y, x);
    PeerParts(e, y, p);
    if p.key.Some? {
      KeyLength(p.key.value);
      AcceptFits(x, p.key.value);
    }
  }

  /// The first of the two segments of `payload` has been taken.
  ghost predicate HalfTaken(x: Endpoint, x': Endpoint, p: Packet, key: nat, payload: Bytes) {
    && |Chunks(payload)| == 2
    && x'.tx == x.tx && x'.state == x.state && x'.rx.notLocal == x.rx.notLocal && |x'.ack| <= 10
    && x'.rx.dup == (if p.key.Some? then {p.key.value} else {})
    && x'.rx.joiner == map[key := J.Segments([Some(Chunks(payload)[0]), None], 1)]
  }

  lemma FirstHalf(e: Env, y: Endpoint, x: Endpoint, p: Packet, g: nat, ch: Channel, key: nat, payload: Bytes)
    requires PeerOk(e, y) && Good(e, y, x) && JustArrived(e, x) && p in y.tx.sent && LaneReady(e.mine, x, p.lane, g, ch)
    requires Half(ch, p.lane, payload, key, 0, p)
    ensures var r := Receive(x, e.mine, Frame(p)); r.out.Fine? && HalfTaken(x, r.x, p, key, payload)
  {
    hide PeerOk, Good, Frame, Receive, OrderersReady, Chunks, Accept;
    SegmentReceived(e, y, x, p, g, ch);
    AcceptNew(e, y, x, p);
    var a := Accept(x, p.key).x;
    var j := J.Join(a.rx.joiner, p.seg.value, p.payload);
    assert j.result.Pending? && j.joiner[key].parts == [Some(Chunks(payload)[0]), None];
  }

  /// Stripped of headers a second time, the message makes the receiver panic.
  ghost predicate Poisoned(ch: Channel, payload: Bytes) {
    Chunks(payload) != [] && Rejoin(ch.IsOrdered(), ch.IsReliable(), Chunks(payload)).Crashed?
  }

  lemma SecondHalf(e: Env, y: Endpoint, x0: Endpoint, x: Endpoint, p: Packet, q: Packet, g: nat, ch: Channel, key: nat,
        payload: Bytes)
    requires PeerOk(e, y) && Good(e, y, x) && x.state.Transfer? && HalfTaken(x0, x, p, key, payload)
    requires p in y.tx.sent && q in y.tx.sent && LaneReady(e.mine, x, q.lane, g, ch) && (p.key.Some? ==> p.key != q.key)
    requires Half(ch, q.lane, payload, key, 1, q) && Poisoned(ch, payload)
    ensures var r := Receive(x, e.mine, Frame(q)); r.out.Crash? && r.x.tx == x.tx
  {
    hide PeerOk, Good, Frame, Receive, Chunks, Accept, Rejoin, J.Join, ReceiveSegment, Half, HalfTaken;
    HalvesJoin(x0, x, p, q, ch, key, payload);
    SegmentReceived(e, y, x, q, g, ch);
    AcceptNew(e, y, x, q);
    LastCrashes(x, e.mine, q.lane, g, ch, q.seg.value, Header(q.order, q.key), q.payload, Chunks(payload));
  }

  lemma HalvesJoin(x0: Endpoint, x: Endpoint, p: Packet, q: Packet, ch: Channel, key: nat, payload: Bytes)
    requires HalfTaken(x0, x, p, key, payload) && Half(ch, q.lane, payload, key, 1, q)
    requires (p.key.Some? ==> p.key != q.key)
    ensures q.seg.Some? && |x.ack| <= 10 && (q.key.Some? ==> q.key.value !in x.rx.dup)
    ensures J.Join(x.rx.joiner, q.seg.value, q.payload).result == J.Complete(Chunks(payload)) && Chunks(payload) != []
  {
    hide Chunks, J.Join;
    JoinSecond(key, Chunks(payload)[0], Chunks(payload)[1]);
    assert Chunks(payload) == [Chunks(payload)[0], Chunks(payload)[1]];
  }

  lemma JoinSecond(key: nat, first: Bytes, second: Bytes)
    ensures J.Join(map[key := J.Segments([Some(first), None], 1)], SegmentMeta(key, 1, 2), second).result
         == J.Complete([first, second])
  {
    var parts := [Some(first), Some(second)];
    assert [Some(first), None][1 := Some(second)] == parts;
    assert J.Values(parts) == [first, second];
  }

  lemma LastCrashes(x: Endpoint, prov: Provider, lane: Lane, g: nat, ch: Channel, meta: SegmentMeta, h: Header,
        payload: Bytes, parts: seq<Bytes>)
    requires Accept(x, h.key).out.Fine? && Accept(x, h.key).x.rx.joiner == x.rx.joiner
    requires J.Join(x.rx.joiner, meta, payload).result == J.Complete(parts) && parts != []
    requires Rejoin(ch.IsOrdered(), ch.IsReliable(), parts).Crashed?
    ensures var r := ReceiveSegment(x, prov, lane, g, ch, meta, h, payload);
            r.out.Crash? && r.x.tx == Accept(x, h.key).x.tx
  {
    hide Accept, J.Join, Rejoin;
  }

  // ---- A run that ends so ----

  /// The two segments of a first message are on the wire, and the receiver has the lane for them.
  ghost predicate HalvesUnderway(e: Env, y: Endpoint, x: Endpoint, name: Bytes, payload: Bytes, p: Packet, q: Packet)
    requires name in e.mine.names && e.mine.names[name] < |e.mine.channels|
  {
    var g := e.mine.names[name];
    var ch := e.mine.channels[g];
    && p in y.tx.sent && q in y.tx.sent && Frame(p) in y.tx.wire && Frame(q) in y.tx.wire
    && LaneReady(e.mine, x, p.lane, g, ch) && q.lane == p.lane && p.seg.Some? && (p.key.Some? ==> p.key != q.key)
    && Half(ch, p.lane, payload, p.seg.value.key, 0, p) && Half(ch, p.lane, payload, p.seg.value.key, 1, q)
  }

  lemma HalvesUnderwayFrom(e: Env, y0: Endpoint, y: Endpoint, x: Endpoint, name: Bytes, payload: Bytes)
      returns (p: Packet, q: Packet)
    requires PeerOk(e, y) && Good(e, y, x) && x.state.Transfer? && y.local == y0.local
    requires name in e.mine.names && e.mine.names[name] < |e.mine.channels|
    requires name in e.theirs.names && e.theirs.ById(e.theirs.names[name]).Some?
    requires var id := y0.local.LocalId(Tra, e.theirs.names[name]);
             && id.Some?
             && BothHalves(y0.tx, y.tx, e.theirs.ById(e.theirs.names[name]).value, Lane(Tra, id.value), payload)
    ensures HalvesUnderway(e, y, x, name, payload, p, q)
  {
    hide PeerOk, Good, Provider.WellFormed, LaneChannel, Frame, Chunks, BareOk, PacketOk, OrdersDistinct;
    EachNamed(e, y, x, name);
    PeerMatches(e, y, name);
    p, q := y.tx.sent[|y0.tx.sent|], y.tx.sent[|y0.tx.sent| + 1];
    PeerParts(e, y, p);
  }

  lemma SendBoth(c: Config, run: seq<Sys>, events: seq<Event>, s: Sys, side: Side, name: Bytes, payload: Bytes)
      returns (run': seq<Sys>, events': seq<Event>, s': Sys)
    requires Roomy(c) && Reaches(c, run, events, s) && Ready(c, s, side) && name in c.At(side).names && AppName(name)
    requires MAX_NON_SEGMENTED_PAYLOAD < |payload| && |Chunks(payload)| == 2
    ensures Reaches(c, run', events', s') && s'.At(side.Other()) == s.At(side.Other()) && s'.At(side).phase.Up?
    ensures c.At(side).ById(c.At(side).names[name]).Some? && s'.At(side).x.local == s.At(side).x.local
    ensures var x, x', g := s.At(side).x, s'.At(side).x, c.At(side).names[name];
            var id := x.local.LocalId(Tra, g);
            id.Some? && BothHalves(x.tx, x'.tx, c.At(side).ById(g).value, Lane(Tra, id.value), payload)
  {
    hide Roomy, Reaches, Config.Ok, PeerOk, Good, AcceptOk, SelfInv, CountsOk, Provider.WellFormed, UpInv, AppSend,
         Easy, AppName, AppChannel, Chunks, BothHalves, Calm, JustArrived;
    RoomyOk(c);
    WellFormedSide(c, side);
    ChannelHere(c, side, name);
    Sides(c, run, events, s, side);
    GoodUp(c.EnvOf(side), s.At(side.Other()).x, s.At(side).x);
    ReadyParts(c, s, side);
    SendHalves(c.EnvOf(side), s.At(side).x, name, payload);
    NamedGlobal(c.At(side), name);
    var g := c.At(side).names[name];
    HalvesUnwrapped(s.At(side).x.tx, AppSend(s.At(side).x, c.At(side), g, payload).x.tx, c.At(side).ById(g).value,
                    Lane(Tra, s.At(side).x.local.LocalId(Tra, g).value), payload);
    run', events', s' := SendOne(c, run, events, s, side, g, payload);
  }

  lemma HalvesUnwrapped(tx: Tx, t: Tx, ch: Channel, lane: Lane, payload: Bytes)
    requires BothHalves(tx, t, ch, lane, payload)
    ensures !t.wrapped
  {
    hide Half, Frame;
  }

  /// From the start to a first message of two segments on the way to `side`.
  lemma HalvesOnTheWay(c: Config, side: Side, name: Bytes, payload: Bytes)
      returns (run: seq<Sys>, events: seq<Event>, s: Sys, p: Packet, q: Packet)
    requires Roomy(c) && name in c.At(side).names && AppName(name)
    requires MAX_NON_SEGMENTED_PAYLOAD < |payload| && |Chunks(payload)| == 2
    ensures Reaches(c, run, events, s) && Ready(c, s, side) && c.At(side).names[name] < |c.At(side).channels|
    ensures HalvesUnderway(c.EnvOf(side), s.At(side.Other()).x, s.At(side).x, name, payload, p, q)
  {
    hide Roomy, Reaches, Ready, Config.Ok, PeerOk, Good, AcceptOk, SelfInv, CountsOk, AppName, BothHalves, JustArrived,
         Chunks, HalvesUnderway;
    RoomyOk(c);
    ChannelHere(c, side, name);
    NameThere(c, side, name);
    var r0, e0, s0 := BothReady(c);
    run, events, s := SendBoth(c, r0, e0, s0, side.Other(), name, payload);
    ReadyStays(c, s0, s, side);
    ReadyParts(c, s, side);
    Sides(c, run, events, s, side);
    p, q := HalvesUnderwayFrom(c.EnvOf(side), s0.At(side.Other()).x, s.At(side.Other()).x, s.At(side).x, name, payload);
  }

  lemma CrashStep(c: Config, run: seq<Sys>, events: seq<Event>, s: Sys, side: Side, d: Bytes)
      returns (run': seq<Sys>, events': seq<Event>)
    requires Reaches(c, run, events, s) && s.At(side).phase.Up? && d in s.At(side.Other()).x.tx.wire
    requires var r := Receive(s.At(side).x, c.At(side), d); r.out.Crash? && r.x.tx == s.At(side).x.tx
    ensures IsRun(c, run', events') && Unwrapped(run'[|events'|]) && run'[|events'|].At(side).phase.Panicked?
  {
    hide IsRun, Receive;
    run', events' := Extend(c, run, events, s, Event(side, Takes(d)));
  }

  /// Both segments arrive.
  lemma HalvesEnd(c: Config, run: seq<Sys>, events: seq<Event>, s: Sys, side: Side, name: Bytes, payload: Bytes,
        p: Packet, q: Packet)
      returns (run': seq<Sys>, events': seq<Event>)
    requires c.Ok() && Reaches(c, run, events, s) && Ready(c, s, side)
    requires name in c.At(side).names && c.At(side).names[name] < |c.At(side).channels|
    requires Poisoned(c.At(side).channels[c.At(side).names[name]], payload)
    requires HalvesUnderway(c.EnvOf(side), s.At(side.Other()).x, s.At(side).x, name, payload, p, q)
    ensures IsRun(c, run', events') && Unwrapped(run'[|events'|]) && run'[|events'|].At(side).phase.Panicked?
  {
    hide Reaches, Ready, Config.Ok, PeerOk, Good, AcceptOk, SelfInv, CountsOk, JustArrived, Receive, Poisoned, IsRun,
         Unwrapped, HalvesUnderway, HalfTaken, Half, LaneReady, Frame;
    var e, y, x := c.EnvOf(side), s.At(side.Other()).x, s.At(side).x;
    var g := c.At(side).names[name];
    HalvesParts(e, y, x, name, payload, p, q);
    ReadyParts(c, s, side);
    Sides(c, run, events, s, side);
    FirstHalf(e, y, x, p, g, c.At(side).channels[g], p.seg.value.key, payload);
    var x1 := Receive(x, e.mine, Frame(p)).x;
    HalfParts(e, x, x1, p, q, g, c.At(side).channels[g], payload);
    var r1, e1, s1 := TakeOne(c, run, events, s, side, Frame(p));
    Sides(c, r1, e1, s1, side);
    SecondHalf(e, y, x, x1, p, q, g, c.At(side).channels[g], p.seg.value.key, payload);
    run', events' := CrashStep(c, r1, e1, s1, side, Frame(q));
  }

  /// On every channel that is ordered or reliable, one message of two segments that starts with six
  /// bytes over 127 ends its receiver, whoever sends it.
  lemma SegmentsHappen(c: Config, side: Side, name: Bytes, payload: Bytes)
      returns (run: seq<Sys>, events: seq<Event>)
    requires Roomy(c) && name in c.At(side).names && AppName(name) && c.At(side).names[name] < |c.At(side).channels|
    requires var ch := c.At(side).channels[c.At(side).names[name]]; ch.IsOrdered() || ch.IsReliable()
    requires MAX_NON_SEGMENTED_PAYLOAD < |payload| <= 2 * SEGMENT_PAYLOAD
    requires forall i :: 0 <= i < 6 ==> payload[i] >= 128
    ensures IsRun(c, run, events) && Unwrapped(run[|events|]) && run[|events|].At(side).phase.Panicked?
  {
    hide Roomy, Reaches, Ready, Config.Ok, AppName, Chunks, Rejoin, IsRun, Unwrapped, HalvesUnderway;
    var ch := c.At(side).channels[c.At(side).names[name]];
    TwoChunks(payload);
    HighBytesCrash(ch.IsOrdered(), ch.IsReliable(), payload);
    RoomyOk(c);
    var r0, e0, s0, p, q := HalvesOnTheWay(c, side, name, payload);
    run, events := HalvesEnd(c, r0, e0, s0, side, name, payload, p, q);
  }

  lemma HalvesParts(e: Env, y: Endpoint, x: Endpoint, name: Bytes, payload: Bytes, p: Packet, q: Packet)
    requires name in e.mine.names && e.mine.names[name] < |e.mine.channels|
    requires HalvesUnderway(e, y, x, name, payload, p, q)
    ensures var g := e.mine.names[name];
            var ch := e.mine.channels[g];
            && p in y.tx.sent && q in y.tx.sent && Frame(p) in y.tx.wire && Frame(q) in y.tx.wire
            && LaneReady(e.mine, x, p.lane, g, ch) && q.lane == p.lane && p.seg.Some?
            && (p.key.Some? ==> p.key != q.key)
            && Half(ch, p.lane, payload, p.seg.value.key, 0, p) && Half(ch, p.lane, payload, p.seg.value.key, 1, q)
  {
    hide Half, LaneReady, Frame;
  }

  lemma HalfParts(e: Env, x: Endpoint, x': Endpoint, p: Packet, q: Packet, g: nat, ch: Channel, payload: Bytes)
    requires p.seg.Some? && HalfTaken(x, x', p, p.seg.value.key, payload) && LaneReady(e.mine, x, p.lane, g, ch)
    requires q.lane == p.lane
    ensures x'.tx == x.tx && x'.state == x.state && LaneReady(e.mine, x', q.lane, g, ch)
  {
    hide Chunks;
  }
}
