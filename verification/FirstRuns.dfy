/**
 Runs from the start: both sides open, come to transfer and exchange a first payload.
 */
module FirstRuns {
  import opened Base
  import opened SlotKeys
  import opened Framing
  import opened Channels
  import opened Endpoints
  import opened Sending
  import opened Acknowledging
  import opened Counting
  import opened Invariants
  import opened Receiving
  import opened Opening
  import opened Systems
  import opened Guarantees
  import opened Protocol
  import opened Panics
  import opened Progress
  import opened Settling
  import opened Conserving
  import opened Capacities
  import opened Possibility
  import O = Ordering

  // ---- Configurations ----

  /// The sides have the same channels with names within the limit, few enough to be acknowledged in one
  /// packet. An orderer's capacity is a positive `usize`, and those of either resender do not overflow.
  ghost predicate Roomy(c: Config) {
    && c.Ok() && c.left.names.Keys == c.right.names.Keys
    && 10 * (|c.left.names.Keys| + 3) <= MAX_NON_SEGMENTED_PAYLOAD
    && (forall n :: n in c.left.names ==> |n| <= MAX_NAME)
    && (forall side: Side, ch: Channel :: ch in c.At(side).channels && ch.IsOrdered() ==> 0 < ch.capacity.value < USIZE)
    && TotalAsked(c.left) < USIZE && TotalAsked(c.right) < USIZE
  }

  lemma RoomySide(c: Config, side: Side)
    requires Roomy(c)
    ensures c.Ok() && c.At(side).WellFormed() && c.At(side).names.Keys == c.At(side.Other()).names.Keys
    ensures 10 * (|c.At(side).names| + 3) <= MAX_NON_SEGMENTED_PAYLOAD
    ensures forall n :: n in c.At(side).names ==> |n| <= MAX_NAME
  {
    assert |c.At(side).names| == |c.At(side).names.Keys|;
  }

  /// The system channels alone make room for 600 packets.
  lemma SystemTotal(prov: Provider)
    requires prov.WellFormed()
    ensures TotalAsked(prov) >= 600
  {
    hide TotalAsked;
    assert ACK_NAME[2] != MANAGEMENT_NAME[2];
    TwoAsk(prov, ACK_NAME, MANAGEMENT_NAME);
  }

  /// Any channel with a short name that asks for a reasonable capacity makes such a configuration, for
  /// one, with the system channels.
  lemma RoomyWith(name: Bytes, ch: Channel)
    requires name !in DefaultProvider().names && name != [] && |name| <= MAX_NAME
    requires ch.IsOrdered() ==> 0 < ch.capacity.value < USIZE
    requires ch.IsReliable() ==> ch.reliability.value.additionalCapacity < USIZE - 600
    ensures var p := DefaultProvider().Add(name, ch); Roomy(Config(p, p)) && name in p.names
  {
    var p := DefaultProvider().Add(name, ch);
    WithShape(name, ch);
    hide Provider.WellFormed, TotalOf, AskedFor, DefaultProvider, Provider.Add;
    TotalWith(p, name, ch);
    assert |p.names.Keys| == 3;
  }

  lemma WithShape(name: Bytes, ch: Channel)
    requires name !in DefaultProvider().names && name != []
    ensures var p := DefaultProvider().Add(name, ch);
            && p.WellFormed() && p.names.Keys == {ACK_NAME, MANAGEMENT_NAME, name} && |p.names.Keys| == 3
            && p.channels == [ACK_CHANNEL, MANAGEMENT_CHANNEL, ch]
            && p.names[ACK_NAME] == 0 && p.names[MANAGEMENT_NAME] == 1 && p.names[name] == 2
            && ACK_NAME != MANAGEMENT_NAME && name != ACK_NAME && name != MANAGEMENT_NAME
  {
    var q := DefaultProvider();
    DefaultWellFormed();
    assert ACK_NAME[2] != MANAGEMENT_NAME[2];
    assert q.names == map[ACK_NAME := 0, MANAGEMENT_NAME := 1];
    assert q.names.Keys == {ACK_NAME, MANAGEMENT_NAME} && |q.names| == |q.names.Keys|;
    AddKeepsWellFormed(q, name, ch);
    hide Provider.WellFormed;
  }

  lemma TotalWith(p: Provider, name: Bytes, ch: Channel)
    requires p.names.Keys == {ACK_NAME, MANAGEMENT_NAME, name}
    requires ACK_NAME != MANAGEMENT_NAME && name != ACK_NAME && name != MANAGEMENT_NAME
    requires p.channels == [ACK_CHANNEL, MANAGEMENT_CHANNEL, ch]
    requires p.names[ACK_NAME] == 0 && p.names[MANAGEMENT_NAME] == 1 && p.names[name] == 2
    ensures TotalAsked(p) == 600 + AskedFor(p, name)
  {
    TotalWithout(p, p.names.Keys, name);
    TotalWithout(p, p.names.Keys - {name}, ACK_NAME);
    TotalWithout(p, p.names.Keys - {name} - {ACK_NAME}, MANAGEMENT_NAME);
    assert p.names.Keys - {name} - {ACK_NAME} - {MANAGEMENT_NAME} == {};
  }

  /// The channels of a provider can be walked.
  lemma {:induction false} Walk(prov: Provider, names: set<Bytes>) returns (all: seq<Entry>)
    requires names <= prov.names.Keys
    ensures |all| == |names| && DistinctNames(all)
    ensures forall e :: e in all ==> e.name in names && prov.names[e.name] == e.global
    ensures forall n :: n in names ==> Entry(n, prov.names[n]) in all
    decreases |names|
  {
    if names == {} {
      all := [];
    } else {
      var n :| n in names;
      var rest := Walk(prov, names - {n});
      all := rest + [Entry(n, prov.names[n])];
    }
  }

  lemma Enumeration(prov: Provider) returns (all: seq<Entry>)
    ensures Enumerates(prov, all)
  {
    all := Walk(prov, prov.names.Keys);
    assert |prov.names| == |prov.names.Keys|;
  }

  // ---- Building a run ----

  /// The run ends in this state, and no counter has started over.
  ghost predicate Reaches(c: Config, run: seq<Sys>, events: seq<Event>, s: Sys) {
    IsRun(c, run, events) && run[|events|] == s && Unwrapped(s)
  }

  lemma Extend(c: Config, run: seq<Sys>, events: seq<Event>, s: Sys,
        e: Event) returns (run': seq<Sys>, events': seq<Event>)
    requires Reaches(c, run, events, s) && Unwrapped(Next(c, s, e))
    requires Enabled(c.At(e.side), s.At(e.side), s.At(e.side.Other()), e.action)
    ensures Reaches(c, run', events', Next(c, s, e)) && events' == events + [e]
  {
    hide Unwrapped, Next, Enabled;
    run', events' := run + [Next(c, s, e)], events + [e];
    RunLength(c, run, events);
    RunExtends(c, run, events, e);
    hide IsRun;
    assert run'[|events'|] == Next(c, s, e);
  }

  lemma Started(c: Config) returns (run: seq<Sys>, events: seq<Event>)
    ensures Reaches(c, run, events, Start()) && events == []
  {
    run, events := [Start()], [];
  }

  /// What is known of the sides at the end of a run.
  lemma Sides(c: Config, run: seq<Sys>, events: seq<Event>, s: Sys, side: Side)
    requires c.Ok() && Reaches(c, run, events, s)
    ensures PeerOk(c.EnvOf(side), s.At(side.Other()).x) && CountsOk(s.At(side))
    ensures AcceptOk(s.At(side.Other()).x, s.At(side).x) && AcceptOk(s.At(side).x, s.At(side.Other()).x)
    ensures s.At(side).phase.Up? ==> Good(c.EnvOf(side), s.At(side.Other()).x, s.At(side).x)
    ensures !s.At(side).x.tx.wrapped && SelfInv(c.At(side), s.At(side).x)
  {
    hide IsRun, Sound, SysInv, Unwrapped, PeerOk, Good, AcceptOk, CountsOk, NodeOk, RecvInv, EnvOk, QuietOk,
         KeysDistinct, SelfInv, Facing;
    RunLength(c, run, events);
    Reached(c, run, events, |events|, side);
    RunSound(c, run, events, |events|);
    SoundSide(c, s, side);
    SoundSide(c, s, side.Other());
    SidePair(c, s, side);
    SideOk(c, s, side);
    StillUnwrapped(s, side);
    if s.At(side).phase.Up? {
      UpIsGood(c, s, side);
    }
  }

  // ---- Opening both sides ----

  /// The side is open: its announcements are on the wire, and nothing has reached it.
  ghost predicate Opened(prov: Provider, x: Endpoint) {
    && AnnouncedTo(x.tx, |x.tx.listing| + 1) && |x.tx.listing| == |prov.names|
    && |x.tx.listing| + 4 <= x.tx.resender.capacity
    && x.tx.finalKey == x.tx.sent[|x.tx.listing|].key && x.tx.finalKey.Some?
    && Untouched(x) && x.ack == []
    && (forall i :: 0 <= i < |x.tx.listing| ==> x.tx.listing[i].name in prov.names)
  }

  /// What the resender is given is between what the announcements need and what fits.
  lemma RoomFor(c: Config, side: Side, listing: seq<Entry>)
    requires Roomy(c) && IsListing(c.At(side), listing)
    ensures |listing| + 4 <= AddedCapacity(c.At(side), listing) < USIZE && |listing| < MANAGEMENT_ID_REGISTRATION
  {
    RoomySide(c, side);
    hide AddedCapacity, Provider.WellFormed, TotalAsked;
    ListingTotal(c.At(side), listing);
    SystemTotal(c.At(side));
    ListingLength(c.At(side), listing);
    ListedNames(c.At(side), listing);
  }

  lemma OpenSide(c: Config, side: Side, listing: seq<Entry>)
    requires Roomy(c) && IsListing(c.At(side), listing)
    ensures var r := Initialize(NewEndpoint(), c.At(side), listing);
            r.out.Fine? && !r.x.tx.wrapped && Opened(c.At(side), r.x)
  {
    var prov := c.At(side);
    hide Roomy, Config.Ok, Provider.WellFormed, Initialize, Untouched, UpInv, AddedCapacity, IsListing, AnnouncedTo,
         TailOn, Opened;
    WellFormedSide(c, side);
    RoomFor(c, side, listing);
    ListedShort(c, side, listing);
    OpenFine(prov, listing);
    InitializeGood(prov, listing);
    InitializeTail(prov, listing);
    var x := Initialize(NewEndpoint(), prov, listing).x;
    NotWrappedYet(x.tx, |listing| + 1);
    UpListing(prov, x);
    ListedNames(prov, x.tx.listing);
    UpHasFinal(Env(prov, prov), x);
    OpenedFrom(prov, x);
  }

  lemma WellFormedSide(c: Config, side: Side)
    requires Roomy(c)
    ensures c.At(side).WellFormed()
  {
    RoomySide(c, side);
  }

  lemma OpenedFrom(prov: Provider, x: Endpoint)
    requires AnnouncedTo(x.tx, |x.tx.listing| + 1) && |x.tx.listing| == |prov.names|
    requires |x.tx.listing| + 4 <= x.tx.resender.capacity
    requires |x.tx.sent| == |x.tx.listing| + 1 ==> x.tx.finalKey == x.tx.sent[|x.tx.listing|].key
    requires x.tx.finalKey.Some? && Untouched(x) && x.ack == []
    requires forall i :: 0 <= i < |x.tx.listing| ==> x.tx.listing[i].name in prov.names
    ensures Opened(prov, x)
  {
    hide Untouched, Timeless, Counted, Announces;
  }

  lemma NotWrappedYet(tx: Tx, k: nat)
    requires AnnouncedTo(tx, k)
    ensures !tx.wrapped
  {
  }

  lemma ListedShort(c: Config, side: Side, listing: seq<Entry>)
    requires Roomy(c) && IsListing(c.At(side), listing)
    ensures |listing| == |c.At(side).names| && forall j :: 0 <= j < |listing| ==> |listing[j].name| <= MAX_NAME
  {
    RoomySide(c, side);
  }

  lemma ListedNames(prov: Provider, listing: seq<Entry>)
    requires IsListing(prov, listing)
    ensures |listing| == |prov.names| && forall i :: 0 <= i < |listing| ==> listing[i].name in prov.names
  {
  }

  lemma FreshOpens(c: Config, run: seq<Sys>, events: seq<Event>, s: Sys, side: Side) returns (all: seq<Entry>)
    requires Roomy(c) && Reaches(c, run, events, s) && s.At(side).phase.Fresh?
    ensures var n := Act(c.At(side), s.At(side), Opens(all));
            && Enabled(c.At(side), s.At(side), s.At(side.Other()), Opens(all))
            && n.phase.Up? && !n.x.tx.wrapped && Opened(c.At(side), n.x)
  {
    hide Reaches, PeerOk, Good, AcceptOk, Initialize, Sorted, Opened, Counted, Tallied, Enumerates, SelfInv, IsListing,
         Roomy;
    RoomyOk(c);
    Sides(c, run, events, s, side);
    all := Enumeration(c.At(side));
    SortedListing(c.At(side), all);
    OpenSide(c, side, Sorted(c.At(side), all));
  }

  lemma RoomyOk(c: Config)
    requires Roomy(c)
    ensures c.Ok()
  {
  }

  lemma OpenOne(c: Config, run: seq<Sys>, events: seq<Event>, s: Sys, side: Side)
      returns (run': seq<Sys>, events': seq<Event>, s': Sys)
    requires Roomy(c) && Reaches(c, run, events, s) && s.At(side).phase.Fresh?
    ensures Reaches(c, run', events', s') && s'.At(side.Other()) == s.At(side.Other())
    ensures s'.At(side).phase.Up? && Opened(c.At(side), s'.At(side).x) && |events'| == |events| + 1
  {
    hide Roomy, Reaches, Act, Enabled, Opened, Unwrapped;
    var all := FreshOpens(c, run, events, s, side);
    s' := Next(c, s, Event(side, Opens(all)));
    BothUnwrapped(c, run, events, s, side);
    run', events' := Extend(c, run, events, s, Event(side, Opens(all)));
  }

  lemma BothUnwrapped(c: Config, run: seq<Sys>, events: seq<Event>, s: Sys, side: Side)
    requires Reaches(c, run, events, s)
    ensures forall n: Node :: !n.x.tx.wrapped ==> Unwrapped(s.With(side, n))
  {
    hide IsRun;
  }

  // ---- Registration ----

  /// One side takes a datagram and goes on.
  lemma TakeOne(c: Config, run: seq<Sys>, events: seq<Event>, s: Sys, side: Side, d: Bytes)
      returns (run': seq<Sys>, events': seq<Event>, s': Sys)
    requires c.Ok() && Reaches(c, run, events, s) && s.At(side).phase.Up? && d in s.At(side.Other()).x.tx.wire
    requires var r := Receive(s.At(side).x, c.At(side), d); r.out.Fine? && !r.x.tx.wrapped
    ensures Reaches(c, run', events', s') && s'.At(side.Other()) == s.At(side.Other())
    ensures s'.At(side) == Node(Up, Receive(s.At(side).x, c.At(side), d).x)
  {
    hide Reaches, Receive, Unwrapped, Config.Ok;
    s' := Next(c, s, Event(side, Takes(d)));
    BothUnwrapped(c, run, events, s, side);
    run', events' := Extend(c, run, events, s, Event(side, Takes(d)));
  }

  lemma AnnouncedWire(e: Env, y: Endpoint, k: nat)
    requires Hearable(e, y) && k <= |y.tx.listing|
    ensures k < |y.tx.sent| && Frame(y.tx.sent[k]) in y.tx.wire
  {
    hide Frame;
    assert Announces(y.tx, k);
  }

  /// A side takes all the announcements of its peer.
  lemma {:induction false} HearAll(c: Config, run: seq<Sys>, events: seq<Event>, s: Sys, side: Side, k: nat)
      returns (run': seq<Sys>, events': seq<Event>, s': Sys)
    requires c.Ok() && Reaches(c, run, events, s) && s.At(side).phase.Up?
    requires k <= |s.At(side.Other()).x.tx.listing| + 1
    requires Hearable(c.EnvOf(side), s.At(side.Other()).x)
    requires Heard(c.EnvOf(side), s.At(side.Other()).x, s.At(side).x, k)
    ensures Reaches(c, run', events', s') && s'.At(side.Other()) == s.At(side.Other()) && s'.At(side).phase.Up?
    ensures var y := s.At(side.Other()).x; Heard(c.EnvOf(side), y, s'.At(side).x, |y.tx.listing| + 1)
    ensures s'.At(side).x.tx == s.At(side).x.tx
    decreases |s.At(side.Other()).x.tx.listing| + 1 - k
  {
    hide Reaches, Hearable, Heard, Receive, Frame, PeerOk, Good, AcceptOk, SelfInv, Config.Ok, CountsOk;
    var x, y := s.At(side).x, s.At(side.Other()).x;
    if k == |y.tx.listing| + 1 {
      run', events', s' := run, events, s;
    } else {
      Sides(c, run, events, s, side);
      AnnouncedWire(c.EnvOf(side), y, k);
      HearOne(c.EnvOf(side), y, x, k);
      var r1, e1, s1 := TakeOne(c, run, events, s, side, Frame(y.tx.sent[k]));
      run', events', s' := HearAll(c, r1, e1, s1, side, k + 1);
    }
  }

  lemma OpenedHearable(c: Config, side: Side, y: Endpoint)
    requires Roomy(c) && Opened(c.At(side.Other()), y)
    ensures Hearable(c.EnvOf(side), y)
  {
    RoomySide(c, side);
    RoomySide(c, side.Other());
    hide Frame, Untouched, Counted, Timeless, Provider.WellFormed;
  }

  lemma OpenedNothing(e: Env, prov: Provider, y: Endpoint, x: Endpoint)
    requires Opened(prov, x)
    ensures Heard(e, y, x, 0)
  {
    hide AnnouncedTo, Heard, Untouched;
    NothingHeard(e, y, x);
  }

  /// The side has taken all announcements of its peer, and its own are still as they were.
  ghost predicate HeardSide(c: Config, s: Sys, side: Side) {
    var x, y := s.At(side).x, s.At(side.Other()).x;
    && s.At(side).phase.Up? && Heard(c.EnvOf(side), y, x, |y.tx.listing| + 1)
    && AnnouncedTo(x.tx, |x.tx.listing| + 1) && |x.tx.listing| + 4 <= x.tx.resender.capacity
    && x.tx.finalKey == x.tx.sent[|x.tx.listing|].key && x.tx.finalKey.Some?
    && 10 * (|x.tx.listing| + 3) <= MAX_NON_SEGMENTED_PAYLOAD
  }

  lemma OpenedSide(c: Config, s: Sys, side: Side, x0: Endpoint)
    requires Roomy(c) && Opened(c.At(side), x0) && s.At(side).x.tx == x0.tx && s.At(side).phase.Up?
    requires Heard(c.EnvOf(side), s.At(side.Other()).x, s.At(side).x, |s.At(side.Other()).x.tx.listing| + 1)
    ensures HeardSide(c, s, side)
  {
    hide Roomy, Heard, Opened, AnnouncedTo;
    FewChannels(c, side);
    OpenedParts(c.At(side), x0);
  }

  lemma FewChannels(c: Config, side: Side)
    requires Roomy(c)
    ensures 10 * (|c.At(side).names| + 3) <= MAX_NON_SEGMENTED_PAYLOAD
  {
    RoomySide(c, side);
  }

  lemma OpenedParts(prov: Provider, x: Endpoint)
    requires Opened(prov, x)
    ensures AnnouncedTo(x.tx, |x.tx.listing| + 1) && |x.tx.sent| == |x.tx.listing| + 1 == |prov.names| + 1
    ensures |x.tx.listing| + 4 <= x.tx.resender.capacity
    ensures x.tx.finalKey == x.tx.sent[|x.tx.listing|].key && x.tx.finalKey.Some?
  {
    hide Untouched, Counted, Timeless, Announces;
  }

  lemma OpenBoth(c: Config) returns (run: seq<Sys>, events: seq<Event>, s: Sys)
    requires Roomy(c)
    ensures Reaches(c, run, events, s) && s.left.phase.Up? && s.right.phase.Up?
    ensures Opened(c.left, s.left.x) && Opened(c.right, s.right.x)
  {
    hide Roomy, Reaches, Opened;
    var r0, e0 := Started(c);
    var r1, e1, s1 := OpenOne(c, r0, e0, Start(), Left);
    run, events, s := OpenOne(c, r1, e1, s1, Right);
  }

  /// An open side takes everything that its peer announced.
  lemma HearSide(c: Config, run: seq<Sys>, events: seq<Event>, s: Sys, side: Side)
      returns (run': seq<Sys>, events': seq<Event>, s': Sys)
    requires Roomy(c) && Reaches(c, run, events, s) && s.At(side).phase.Up? && Opened(c.At(side), s.At(side).x)
    requires Hearable(c.EnvOf(side), s.At(side.Other()).x)
    ensures Reaches(c, run', events', s') && s'.At(side.Other()) == s.At(side.Other())
    ensures HeardSide(c, s', side) && s'.At(side).x.tx == s.At(side).x.tx
  {
    hide Roomy, Reaches, Hearable, Heard, Opened, HeardSide, Config.Ok;
    RoomyOk(c);
    OpenedNothing(c.EnvOf(side), c.At(side), s.At(side.Other()).x, s.At(side).x);
    run', events', s' := HearAll(c, run, events, s, side, 0);
    OpenedSide(c, s', side, s.At(side).x);
  }

  lemma StillHearable(e: Env, y: Endpoint, y': Endpoint)
    requires Hearable(e, y) && y'.tx == y.tx
    ensures Hearable(e, y')
  {
    hide Announces;
  }

  /// What the peer takes meanwhile changes nothing that it sent.
  lemma StillHeard(c: Config, s: Sys, s': Sys, side: Side)
    requires HeardSide(c, s, side) && s'.At(side) == s.At(side)
    requires s'.At(side.Other()).x.tx == s.At(side.Other()).x.tx
    ensures HeardSide(c, s', side)
  {
    hide FrontKeys, EncodeKeys, OrderersReady, AnnouncedTo;
  }

  /// From the start to the end of all announcements.
  lemma HearBoth(c: Config) returns (run: seq<Sys>, events: seq<Event>, s: Sys)
    requires Roomy(c)
    ensures Reaches(c, run, events, s) && HeardSide(c, s, Left) && HeardSide(c, s, Right)
  {
    hide Roomy, Reaches, Hearable, Opened, HeardSide;
    var r1, e1, s1 := OpenBoth(c);
    OpenedHearable(c, Left, s1.right.x);
    OpenedHearable(c, Right, s1.left.x);
    var r2, e2, s2 := HearSide(c, r1, e1, s1, Right);
    StillHearable(c.EnvOf(Left), s1.right.x, s2.right.x);
    run, events, s := HearSide(c, r2, e2, s2, Left);
    StillHeard(c, s2, s, Right);
  }

  // ---- Acknowledging ----

  lemma HeardEasy(c: Config, s: Sys, side: Side)
    requires HeardSide(c, s, side)
    ensures Easy(s.At(side).x.tx) && Timeless(s.At(side).x.tx.resender.slots)
    ensures s.At(side).x.state.Registration? && s.At(side).phase.Up?
  {
    hide Counted, Timeless, Announces, FrontKeys, OrderersReady, EncodeKeys;
  }

  /// One side flushes its acknowledgements.
  lemma FlushSide(c: Config, run: seq<Sys>, events: seq<Event>, s: Sys, side: Side, delta: nat)
      returns (run': seq<Sys>, events': seq<Event>, s': Sys)
    requires c.Ok() && Reaches(c, run, events, s) && s.At(side).phase.Up?
    requires s.At(side).x.state.Registration? && Easy(s.At(side).x.tx) && Timeless(s.At(side).x.tx.resender.slots)
    requires delta < MANAGEMENT_CHANNEL.reliability.value.interval
    ensures Reaches(c, run', events', s') && s'.At(side.Other()) == s.At(side.Other())
    ensures s'.At(side).phase.Up? && Flushed(s.At(side).x, s'.At(side).x)
    ensures events' == events + [Event(side, Ticks(delta))]
    ensures exists b :: s'.At(side).x.tx.resender.slots == s.At(side).x.tx.resender.Update(delta).slots.Put(b)
  {
    hide Reaches, Tick, Easy, Unwrapped, Config.Ok, PeerOk, Good, AcceptOk, SelfInv, CountsOk, UpInv;
    Sides(c, run, events, s, side);
    GoodUp(c.EnvOf(side), s.At(side.Other()).x, s.At(side).x);
    TickOnce(c.EnvOf(side), s.At(side).x, delta);
    s' := Next(c, s, Event(side, Ticks(delta)));
    BothUnwrapped(c, run, events, s, side);
    run', events' := Extend(c, run, events, s, Event(side, Ticks(delta)));
  }

  lemma GoodUp(e: Env, y: Endpoint, x: Endpoint)
    requires Good(e, y, x)
    ensures UpInv(e.mine, x)
  {
  }

  /// Both sides have taken all announcements in `s0` and have acknowledged them in `s`.
  ghost predicate AckedBoth(c: Config, s0: Sys, s: Sys) {
    && HeardSide(c, s0, Left) && HeardSide(c, s0, Right)
    && Flushed(s0.left.x, s.left.x) && Flushed(s0.right.x, s.right.x) && s.left.phase.Up? && s.right.phase.Up?
  }

  lemma AckBoth(c: Config) returns (r0: seq<Sys>, e0: seq<Event>, s0: Sys, run: seq<Sys>, events: seq<Event>, s: Sys)
    requires Roomy(c)
    ensures Reaches(c, r0, e0, s0) && Reaches(c, run, events, s) && AckedBoth(c, s0, s)
  {
    RoomyOk(c);
    hide Roomy, Reaches, HeardSide, Flushed, Config.Ok, Easy;
    r0, e0, s0 := HearBoth(c);
    HeardEasy(c, s0, Left);
    HeardEasy(c, s0, Right);
    var r1, e1, s1 := FlushSide(c, r0, e0, s0, Left, 0);
    run, events, s := FlushSide(c, r1, e1, s1, Right, 0);
  }

  /// Nothing of the transfer stage has been submitted, and few packets have been sent.
  ghost predicate Calm(x: Endpoint) {
    && |x.tx.sent| < U32 - 2 && x.tx.resender.capacity > 1 && x.tx.messages == []
    && (forall lane: Lane :: lane.stage.Tra? ==> Lookup(x.tx.submitted, lane) == [])
  }

  ghost function Owed(s: Sys, side: Side): seq<Key>
    requires var sent := s.At(side).x.tx.sent; forall i :: 0 <= i < |sent| ==> sent[i].key.Some?
  {
    FrontKeys(s.At(side).x.tx.sent, |s.At(side).x.tx.sent|)
  }

  lemma HeardKeys(c: Config, run: seq<Sys>, events: seq<Event>, s: Sys, side: Side)
    requires c.Ok() && Reaches(c, run, events, s) && HeardSide(c, s, side) && HeardSide(c, s, side.Other())
    ensures var x, y := s.At(side).x, s.At(side.Other()).x;
            && (forall i :: 0 <= i < |x.tx.sent| ==> x.tx.sent[i].key.Some? && Fits(x.tx.sent[i].key.value))
            && |x.tx.sent| == |x.tx.listing| + 1 && y.ack == EncodeKeys(Owed(s, side))
            && (forall q :: q in Owed(s, side) ==> Fits(q) && q in y.rx.noted)
  {
    hide Reaches, PeerOk, Good, AcceptOk, SelfInv, CountsOk, Config.Ok, Timeless, Counted, Frame, OrderersReady,
         FrontKeys, EncodeKeys;
    var x, y := s.At(side).x, s.At(side.Other()).x;
    Sides(c, run, events, s, side.Other());
    forall i: nat | i < |x.tx.sent|
      ensures x.tx.sent[i].key.Some? && Fits(x.tx.sent[i].key.value)
    {
      assert Announces(x.tx, i);
      AnnouncedPacket(c.EnvOf(side.Other()), x, i);
    }
    BufferedNoted(c.EnvOf(side.Other()), x, y, |x.tx.sent|);
  }

  lemma FlushedSides(c: Config, s0: Sys, s: Sys, side: Side)
    requires AckedBoth(c, s0, s)
    ensures HeardSide(c, s0, side) && Flushed(s0.At(side).x, s.At(side).x) && s.At(side).phase.Up?
  {
    hide HeardSide, Flushed;
  }

  lemma WaitingSide(c: Config, r0: seq<Sys>, e0: seq<Event>, s0: Sys, s: Sys, side: Side)
      returns (ks: seq<Key>)
    requires c.Ok() && Reaches(c, r0, e0, s0) && AckedBoth(c, s0, s)
    ensures Waiting(c.EnvOf(side), s.At(side.Other()).x, s.At(side).x, ks)
  {
    hide Reaches, AckedBoth, HeardSide, Flushed, Waiting, Config.Ok, Heard, FrontKeys, EncodeKeys, Frame;
    FlushedSides(c, s0, s, side);
    FlushedSides(c, s0, s, side.Other());
    HeardKeys(c, r0, e0, s0, side);
    HeardKeys(c, r0, e0, s0, side.Other());
    HeardFinal(c, s0, side);
    ks := FrontKeys(s0.At(side).x.tx.sent, |s0.At(side).x.tx.sent|);
    WaitingFrom(c.EnvOf(side), s0.At(side.Other()).x, s.At(side.Other()).x, s0.At(side).x, s.At(side).x);
  }

  lemma HeardFinal(c: Config, s: Sys, side: Side)
    requires HeardSide(c, s, side)
    ensures var x, y := s.At(side).x, s.At(side.Other()).x;
            && Heard(c.EnvOf(side), y, x, |y.tx.listing| + 1) && |x.tx.sent| == |x.tx.listing| + 1
            && x.tx.finalKey.Some? && x.tx.finalKey == x.tx.sent[|x.tx.listing|].key
  {
    hide Heard, Timeless, Counted, Announces;
  }

  lemma CalmSide(c: Config, r0: seq<Sys>, e0: seq<Event>, s0: Sys, s: Sys, side: Side)
    requires c.Ok() && Reaches(c, r0, e0, s0) && AckedBoth(c, s0, s)
    ensures Calm(s.At(side).x)
  {
    hide Reaches, AckedBoth, PeerOk, Good, AcceptOk, CountsOk, Config.Ok, Frame, SelfInv;
    FlushedSides(c, s0, s, side);
    Sides(c, r0, e0, s0, side);
    HeardEasy(c, s0, side);
    CalmFrom(c, s0, s, side);
  }

  lemma CalmFrom(c: Config, s0: Sys, s: Sys, side: Side)
    requires HeardSide(c, s0, side) && Flushed(s0.At(side).x, s.At(side).x) && SelfInv(c.At(side), s0.At(side).x)
    ensures Calm(s.At(side).x)
  {
    HeardEasy(c, s0, side);
    hide Heard, Timeless, Counted, Announces, Frame, TxInv, BufferOk, AnnouncedOk, AnnouncedAll, Easy;
    forall lane: Lane | lane.stage.Tra?
      ensures Lookup(s.At(side).x.tx.submitted, lane) == []
    {
      assert Lookup(s0.At(side).x.tx.submitted, lane) == [];
    }
  }

  /// A side in transfer that has room and has sent and received nothing there.
  ghost predicate Ready(c: Config, s: Sys, side: Side) {
    && s.At(side).phase.Up? && JustArrived(c.EnvOf(side), s.At(side).x)
    && Calm(s.At(side).x) && Easy(s.At(side).x.tx) && s.At(side).x.tx.resender.slots.Len() == 0
  }

  /// A side takes its peer's acknowledgements.
  lemma EnterSide(c: Config, run: seq<Sys>, events: seq<Event>, s: Sys, side: Side, ks: seq<Key>)
      returns (run': seq<Sys>, events': seq<Event>, s': Sys)
    requires c.Ok() && Reaches(c, run, events, s) && s.At(side).phase.Up? && Calm(s.At(side).x)
    requires Waiting(c.EnvOf(side), s.At(side.Other()).x, s.At(side).x, ks)
    ensures Reaches(c, run', events', s') && s'.At(side.Other()) == s.At(side.Other()) && Ready(c, s', side)
    ensures var x, x' := s.At(side).x, s'.At(side).x;
            && x'.tx.sent == x.tx.sent && x'.tx.wire == x.tx.wire && x'.tx.listing == x.tx.listing
            && x.rx.noted <= x'.rx.noted
  {
    hide Reaches, PeerOk, Good, AcceptOk, SelfInv, CountsOk, Config.Ok, Waiting, Frame, Receive, Calm, Ready,
         JustArrived;
    var x, y := s.At(side).x, s.At(side.Other()).x;
    Sides(c, run, events, s, side);
    WaitingWire(c.EnvOf(side), y, x, ks);
    WaitingArrives(c.EnvOf(side), y, x, ks);
    var d := Frame(y.tx.sent[|y.tx.listing| + 1]);
    var r := Receive(x, c.At(side), d);
    var a: Endpoint :| Entering(a, r.x) && a.tx == x.tx && a.local == x.local;
    run', events', s' := TakeOne(c, run, events, s, side, d);
    Sides(c, run', events', s', side);
    EnteredReady(c, s', side, x, a);
  }

  lemma WaitingWire(e: Env, y: Endpoint, x: Endpoint, ks: seq<Key>)
    requires Waiting(e, y, x, ks)
    ensures |y.tx.sent| == |y.tx.listing| + 2 && Frame(y.tx.sent[|y.tx.listing| + 1]) in y.tx.wire
  {
    hide Frame, EncodeKeys, FrontKeys, OrderersReady;
  }

  lemma EnteredReady(c: Config, s: Sys, side: Side, x: Endpoint, a: Endpoint)
    requires s.At(side).phase.Up? && JustArrived(c.EnvOf(side), s.At(side).x) && CountsOk(s.At(side))
    requires Entering(a, s.At(side).x) && a.tx == x.tx && !x.tx.wrapped && Calm(x)
    ensures Ready(c, s, side)
  {
    hide JustArrived, Counted, Tallied;
  }

  lemma ReadyStays(c: Config, s: Sys, s': Sys, side: Side)
    requires Ready(c, s, side) && s'.At(side) == s.At(side)
    ensures Ready(c, s', side)
  {
    hide JustArrived, Calm, Easy;
  }

  /// From the start to transfer on both sides.
  lemma BothReady(c: Config) returns (run: seq<Sys>, events: seq<Event>, s: Sys)
    requires Roomy(c)
    ensures Reaches(c, run, events, s) && Ready(c, s, Left) && Ready(c, s, Right)
  {
    RoomyOk(c);
    hide Roomy, Reaches, AckedBoth, Config.Ok, Waiting, Calm, Ready;
    var r0, e0, s0, r1, e1, s1 := AckBoth(c);
    var left := WaitingSide(c, r0, e0, s0, s1, Left);
    var right := WaitingSide(c, r0, e0, s0, s1, Right);
    CalmSide(c, r0, e0, s0, s1, Left);
    CalmSide(c, r0, e0, s0, s1, Right);
    FlushedSides(c, s0, s1, Left);
    FlushedSides(c, s0, s1, Right);
    var r2, e2, s2 := EnterSide(c, r1, e1, s1, Left, left);
    StillWaiting(c.EnvOf(Right), s1.left.x, s2.left.x, s2.right.x, right);
    run, events, s := EnterSide(c, r2, e2, s2, Right, right);
    ReadyStays(c, s2, s, Left);
  }

  // ---- The first payload ----

  lemma ChannelRoom(c: Config, side: Side, name: Bytes)
    requires Roomy(c) && name in c.At(side).names
    ensures name in c.At(side.Other()).names && c.At(side).names[name] < |c.At(side).channels|
    ensures c.At(side.Other()).names[name] < |c.At(side.Other()).channels|
    ensures var ch, ch' := c.At(side).channels[c.At(side).names[name]],
                c.At(side.Other()).channels[c.At(side.Other()).names[name]];
            && (ch.IsOrdered() ==> 0 < ch.capacity.value < USIZE)
            && ch.IsOrdered() == ch'.IsOrdered() && ch.IsReliable() == ch'.IsReliable()
  {
  }

  lemma SendSide(c: Config, run: seq<Sys>, events: seq<Event>, s: Sys, side: Side, name: Bytes, payload: Bytes)
      returns (run': seq<Sys>, events': seq<Event>, s': Sys)
    requires Roomy(c) && Reaches(c, run, events, s) && Ready(c, s, side)
    requires name in c.At(side).names && AppName(name) && |payload| <= MAX_NON_SEGMENTED_PAYLOAD
    ensures Reaches(c, run', events', s') && s'.At(side.Other()) == s.At(side.Other()) && s'.At(side).phase.Up?
    ensures c.At(side).ById(c.At(side).names[name]).Some?
    ensures FirstPacket(c.At(side), s.At(side).x, s'.At(side).x, name, payload)
    ensures s.At(side).x.state.Transfer? && Calm(s.At(side).x)
  {
    hide Roomy, Reaches, Config.Ok, Provider.WellFormed, FirstPacket, AppSend, AppName, AppChannel, Ready, Calm;
    RoomySide(c, side);
    ChannelHere(c, side, name);
    ReadySends(c, run, events, s, side, name, payload);
    var g := c.At(side).names[name];
    PacketState(c.At(side), s.At(side).x, AppSend(s.At(side).x, c.At(side), g, payload).x, name, payload);
    run', events', s' := SendOne(c, run, events, s, side, g, payload);
  }

  lemma ChannelHere(c: Config, side: Side, name: Bytes)
    requires Roomy(c) && name in c.At(side).names
    ensures c.At(side).names[name] < |c.At(side).channels|
  {
  }

  /// One side sends a payload and goes on.
  lemma SendOne(c: Config, run: seq<Sys>, events: seq<Event>, s: Sys, side: Side, g: nat, payload: Bytes)
      returns (run': seq<Sys>, events': seq<Event>, s': Sys)
    requires Reaches(c, run, events, s) && s.At(side).phase.Up? && AppChannel(c.At(side), g)
    requires var r := AppSend(s.At(side).x, c.At(side), g, payload); r.out.Fine? && !r.x.tx.wrapped
    ensures Reaches(c, run', events', s') && s'.At(side.Other()) == s.At(side.Other())
    ensures s'.At(side) == Node(Up, AppSend(s.At(side).x, c.At(side), g, payload).x)
  {
    hide Reaches, AppSend, Unwrapped, AppChannel;
    s' := Next(c, s, Event(side, Sends(g, payload)));
    BothUnwrapped(c, run, events, s, side);
    run', events' := Extend(c, run, events, s, Event(side, Sends(g, payload)));
  }

  lemma ReadySends(c: Config, run: seq<Sys>, events: seq<Event>, s: Sys, side: Side, name: Bytes, payload: Bytes)
    requires c.Ok() && c.At(side).WellFormed() && Reaches(c, run, events, s) && Ready(c, s, side)
    requires name in c.At(side).names && c.At(side).names[name] < |c.At(side).channels|
    requires AppName(name) && |payload| <= MAX_NON_SEGMENTED_PAYLOAD
    ensures s.At(side).phase.Up? && s.At(side).x.state.Transfer? && Calm(s.At(side).x)
    ensures AppChannel(c.At(side), c.At(side).names[name])
    ensures var r := AppSend(s.At(side).x, c.At(side), c.At(side).names[name], payload);
            r.out.Fine? && FirstPacket(c.At(side), s.At(side).x, r.x, name, payload)
  {
    hide Reaches, PeerOk, Good, AcceptOk, SelfInv, CountsOk, Config.Ok, Provider.WellFormed, FirstPacket, AppSend, Easy,
         AppName, UpInv, AppChannel, OrderersReady;
    Sides(c, run, events, s, side);
    GoodUp(c.EnvOf(side), s.At(side.Other()).x, s.At(side).x);
    SendFirst(c.EnvOf(side), s.At(side).x, name, payload);
    NamedGlobal(c.At(side), name);
  }

  /// The packet `p` carries the first payload of a channel, and its receiver has the lane for it.
  ghost predicate Underway(e: Env, y: Endpoint, x: Endpoint, name: Bytes, payload: Bytes, p: Packet)
    requires name in e.mine.names && e.mine.names[name] < |e.mine.channels|
  {
    var g := e.mine.names[name];
    var ch := e.mine.channels[g];
    && Payload(y, p) && p.payload == payload && Frame(p) in y.tx.wire
    && LaneReady(e.mine, x, p.lane, g, ch) && p.lane.chan < |x.rx.notLocal.localToGlobal|
    && p.order == (if ch.IsOrdered() then Some(0) else None) && (p.key.Some? <==> ch.IsReliable())
    && name in e.theirs.names && Outbox(e.theirs, y, name) == [payload]
  }

  lemma UnderwayFrom(e: Env, y0: Endpoint, y: Endpoint, x: Endpoint, name: Bytes, payload: Bytes)
      returns (p: Packet)
    requires PeerOk(e, y) && Good(e, y, x) && UpInv(e.theirs, y) && x.state.Transfer? && Calm(y0) && AppName(name)
    requires name in e.mine.names && e.mine.names[name] < |e.mine.channels|
    requires name in e.theirs.names && e.theirs.names[name] < |e.theirs.channels|
    requires FirstPacket(e.theirs, y0, y, name, payload)
    ensures Underway(e, y, x, name, payload, p) && y.tx.sent == y0.tx.sent + [p]
  {
    hide PeerOk, Good, UpInv, Provider.WellFormed, IsAckLane, LaneChannel, Frame, AppName, AppChannel;
    ListingFits(e, y);
    hide ListingOk, DistinctEntries;
    NamedGlobal(e.theirs, name);
    AppLane(Env(e.theirs, e.mine), y, e.theirs.names[name]);
    EachNamed(e, y, x, name);
    PeerMatches(e, y, name);
    p := y.tx.sent[|y0.tx.sent|];
  }

  /// The payload is the first and only one that was sent and delivered on the channel.
  ghost predicate Exchanged(c: Config, s: Sys, side: Side, name: Bytes, payload: Bytes) {
    && name in c.At(side).names && name in c.At(side.Other()).names
    && s.left.phase.Up? && s.right.phase.Up? && s.left.x.state.Transfer? && s.right.x.state.Transfer?
    && Outbox(c.At(side.Other()), s.At(side.Other()).x, name) == [payload]
    && Inbox(c.At(side), s.At(side).x, name) == [payload]
  }

  lemma FirstBuffer(e: Env, y: Endpoint, x: Endpoint, name: Bytes)
    requires Good(e, y, x) && JustArrived(e, x) && name in e.mine.names
    ensures Inbox(e.mine, x, name) == []
  {
    hide UpInv, AcceptOk, TableOk, LanesOk, QuietOk, RoutedOk, JoiningOk, ReleasedOk, HandshakeOk, OrderersReady;
    var g := e.mine.names[name];
    assert BufferOf(x.rx.buffers, g) != [] ==> HasLane(x, g);
  }

  /// From the start to the first payload that the peer of `side` sends to it.
  lemma FirstOnTheWay(c: Config, side: Side, name: Bytes, payload: Bytes)
      returns (run: seq<Sys>, events: seq<Event>, s: Sys, p: Packet)
    requires Roomy(c) && name in c.At(side).names && AppName(name) && |payload| <= MAX_NON_SEGMENTED_PAYLOAD
    ensures Reaches(c, run, events, s) && Ready(c, s, side) && s.At(side.Other()).phase.Up?
    ensures c.At(side).names[name] < |c.At(side).channels| && s.At(side.Other()).x.state.Transfer?
    ensures Underway(c.EnvOf(side), s.At(side.Other()).x, s.At(side).x, name, payload, p)
  {
    hide Roomy, Reaches, Ready, Underway, AppName, FirstPacket, Calm;
    ChannelHere(c, side, name);
    NameThere(c, side, name);
    var r0, e0, s0 := BothReady(c);
    run, events, s := SendSide(c, r0, e0, s0, side.Other(), name, payload);
    ReadyStays(c, s0, s, side);
    PacketState(c.At(side.Other()), s0.At(side.Other()).x, s.At(side.Other()).x, name, payload);
    p := UnderwaySide(c, run, events, s, s0.At(side.Other()).x, side, name, payload);
  }

  lemma NameThere(c: Config, side: Side, name: Bytes)
    requires Roomy(c) && name in c.At(side).names
    ensures name in c.At(side.Other()).names
  {
  }

  lemma UnderwaySide(c: Config, run: seq<Sys>, events: seq<Event>, s: Sys, y0: Endpoint, side: Side, name: Bytes,
        payload: Bytes)
      returns (p: Packet)
    requires Roomy(c) && Reaches(c, run, events, s) && Ready(c, s, side) && s.At(side.Other()).phase.Up? && Calm(y0)
    requires name in c.At(side).names && c.At(side).names[name] < |c.At(side).channels| && AppName(name)
    requires name in c.At(side.Other()).names && c.At(side.Other()).ById(c.At(side.Other()).names[name]).Some?
    requires FirstPacket(c.At(side.Other()), y0, s.At(side.Other()).x, name, payload)
    ensures Underway(c.EnvOf(side), s.At(side.Other()).x, s.At(side).x, name, payload, p)
  {
    hide Roomy, Reaches, Ready, Config.Ok, AppName, FirstPacket, PeerOk, Good, AcceptOk, SelfInv, CountsOk, Underway,
         UpInv, Calm, JustArrived;
    RoomyOk(c);
    ReadyParts(c, s, side);
    Sides(c, run, events, s, side);
    Sides(c, run, events, s, side.Other());
    GoodUp(c.EnvOf(side.Other()), s.At(side).x, s.At(side.Other()).x);
    p := UnderwayFrom(c.EnvOf(side), y0, s.At(side.Other()).x, s.At(side).x, name, payload);
  }

  lemma ReadyParts(c: Config, s: Sys, side: Side)
    requires Ready(c, s, side)
    ensures s.At(side).phase.Up? && s.At(side).x.state.Transfer? && JustArrived(c.EnvOf(side), s.At(side).x)
  {
    hide OrderersReady, Calm, Easy;
  }

  lemma PacketState(prov: Provider, x: Endpoint, x': Endpoint, name: Bytes, payload: Bytes)
    requires name in prov.names && prov.ById(prov.names[name]).Some? && FirstPacket(prov, x, x', name, payload)
    ensures x'.state == x.state && !x'.tx.wrapped
  {
  }

  lemma RoomAt(c: Config, side: Side, name: Bytes)
    requires Roomy(c) && name in c.At(side).names
    ensures c.At(side).names[name] < |c.At(side).channels|
    ensures var ch := c.At(side).channels[c.At(side).names[name]]; ch.IsOrdered() ==> 0 < ch.capacity.value < USIZE
  {
  }

  /// And it is delivered.
  lemma FirstAtPeer(c: Config, side: Side, name: Bytes, payload: Bytes)
      returns (run: seq<Sys>, events: seq<Event>, s: Sys, p: Packet)
    requires Roomy(c) && name in c.At(side).names && AppName(name) && |payload| <= MAX_NON_SEGMENTED_PAYLOAD
    ensures Reaches(c, run, events, s) && Exchanged(c, s, side, name, payload)
    ensures c.At(side).names[name] < |c.At(side).channels|
    ensures Underway(c.EnvOf(side), s.At(side.Other()).x, s.At(side).x, name, payload, p)
    ensures var ch := c.At(side).channels[c.At(side).names[name]];
            ch.IsOrdered() ==> WindowOf(s.At(side).x, p.lane) == Some(O.Window(1, map[], ch.capacity.value))
  {
    hide Roomy, Reaches, Ready, Config.Ok, AppName, PeerOk, Good, AcceptOk, SelfInv, CountsOk, Underway, Receive,
         Exchanged, JustArrived, Took, Inbox, Frame, LaneReady, Payload;
    RoomyOk(c);
    RoomAt(c, side, name);
    var r0, e0, s0;
    r0, e0, s0, p := FirstOnTheWay(c, side, name, payload);
    var e, y, x := c.EnvOf(side), s0.At(side.Other()).x, s0.At(side).x;
    var g := c.At(side).names[name];
    ReadyParts(c, s0, side);
    Sides(c, r0, e0, s0, side);
    FirstBuffer(e, y, x, name);
    UnderwayParts(e, y, x, name, payload, p);
    FirstTaken(e, y, x, p, g, c.At(side).channels[g]);
    TookParts(x, Receive(x, e.mine, Frame(p)).x, g, p);
    run, events, s := TakeOne(c, r0, e0, s0, side, Frame(p));
    TookFirst(c, s0, s, side, name, payload, p);
  }

  lemma TookParts(x: Endpoint, x': Endpoint, g: nat, p: Packet)
    requires Took(x, x', g, p)
    ensures x'.tx == x.tx
  {
  }

  lemma UnderwayParts(e: Env, y: Endpoint, x: Endpoint, name: Bytes, payload: Bytes, p: Packet)
    requires name in e.mine.names && e.mine.names[name] < |e.mine.channels| && Underway(e, y, x, name, payload, p)
    ensures var g := e.mine.names[name];
            var ch := e.mine.channels[g];
            && Payload(y, p) && LaneReady(e.mine, x, p.lane, g, ch) && Frame(p) in y.tx.wire
            && p.order == (if ch.IsOrdered() then Some(0) else None)
  {
    hide Payload, LaneReady, Frame;
  }

  lemma TookFirst(c: Config, s0: Sys, s: Sys, side: Side, name: Bytes, payload: Bytes, p: Packet)
    requires name in c.At(side).names && c.At(side).names[name] < |c.At(side).channels|
    requires Underway(c.EnvOf(side), s0.At(side.Other()).x, s0.At(side).x, name, payload, p)
    requires s.At(side.Other()) == s0.At(side.Other()) && s.At(side).phase.Up? && s.At(side.Other()).phase.Up?
    requires s0.At(side).x.state.Transfer? && s0.At(side.Other()).x.state.Transfer?
    requires Took(s0.At(side).x, s.At(side).x, c.At(side).names[name], p)
    requires Inbox(c.At(side), s0.At(side).x, name) == [] && JustArrived(c.EnvOf(side), s0.At(side).x)
    ensures Exchanged(c, s, side, name, payload)
    ensures Underway(c.EnvOf(side), s.At(side.Other()).x, s.At(side).x, name, payload, p)
    ensures var ch := c.At(side).channels[c.At(side).names[name]];
            ch.IsOrdered() ==> WindowOf(s.At(side).x, p.lane) == Some(O.Window(1, map[], ch.capacity.value))
  {
    hide Payload, Frame, OrderersReady, IsAckLane;
    var g := c.At(side).names[name];
    var ch := c.At(side).channels[g];
    if ch.IsOrdered() {
      NewOrderer(c.EnvOf(side), s0.At(side).x, p.lane, g, ch);
    }
  }

  /// The connection works: for any providers that agree and are not too large, some run opens both sides,
  /// brings both to transfer and delivers a first payload on the given channel, in either direction.
  lemma FirstDelivery(c: Config, side: Side, name: Bytes, payload: Bytes)
      returns (run: seq<Sys>, events: seq<Event>)
    requires Roomy(c) && name in c.At(side).names && AppName(name) && |payload| <= MAX_NON_SEGMENTED_PAYLOAD
    ensures IsRun(c, run, events) && Unwrapped(run[|events|]) && Exchanged(c, run[|events|], side, name, payload)
  {
    var s, p;
    run, events, s, p := FirstAtPeer(c, side, name, payload);
    hide IsRun, Exchanged, Roomy, Unwrapped;
  }
}
