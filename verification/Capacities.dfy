/** How much room the resender has: what the channels ask for together, from opening to the end. */
module Capacities {
  import opened Base
  import opened Framing
  import opened SlotMaps
  import opened Channels
  import opened Counting
  import opened Endpoints
  import opened Sending
  import opened Invariants
  import opened Receiving
  import opened Opening
  import opened Systems
  import opened Guarantees
  import opened Protocol
  import R = Resend

  // ---- What a provider asks for ----

  /// The additional capacity that the channel of this name asks for.
  function AskedFor(prov: Provider, name: Bytes): nat
    requires name in prov.names
  {
    match prov.ById(prov.names[name])
    case Some(ch) => if ch.reliability.Some? then ch.reliability.value.additionalCapacity else 0
    case None => 0
  }

  /// What the channels of these names ask for together.
  ghost function TotalOf(prov: Provider, names: set<Bytes>): nat
    requires names <= prov.names.Keys
  {
    if names == {} then 0
    else
      var n :| n in names;
      AskedFor(prov, n) + TotalOf(prov, names - {n})
  }

  ghost function TotalAsked(prov: Provider): nat {
    TotalOf(prov, prov.names.Keys)
  }

  /// The total does not depend on the order in which it is taken.
  lemma {:induction false} TotalWithout(prov: Provider, names: set<Bytes>, n: Bytes)
    requires names <= prov.names.Keys && n in names
    ensures TotalOf(prov, names) == AskedFor(prov, n) + TotalOf(prov, names - {n})
    decreases |names|
  {
    var m :| m in names && TotalOf(prov, names) == AskedFor(prov, m) + TotalOf(prov, names - {m});
    if m != n {
      TotalWithout(prov, names - {m}, n);
      TotalWithout(prov, names - {n}, m);
      assert names - {m} - {n} == names - {n} - {m};
    }
  }

  lemma {:induction false} ListedTotal(prov: Provider, listing: seq<Entry>, names: set<Bytes>)
    requires names <= prov.names.Keys && |listing| == |names|
    requires forall i :: 0 <= i < |listing| ==>
               listing[i].name in names && prov.names[listing[i].name] == listing[i].global
    requires forall i, j :: 0 <= i < j < |listing| ==> listing[i].name != listing[j].name
    ensures AddedCapacity(prov, listing) == TotalOf(prov, names)
    decreases |listing|
  {
    if listing != [] {
      var n := listing[0].name;
      TotalWithout(prov, names, n);
      ListedTotal(prov, listing[1..], names - {n});
    }
  }

  lemma ListingTotal(prov: Provider, listing: seq<Entry>)
    requires IsListing(prov, listing)
    ensures AddedCapacity(prov, listing) == TotalAsked(prov)
  {
    assert |prov.names| == |prov.names.Keys|;
    ListedTotal(prov, listing, prov.names.Keys);
  }

  lemma TwoAsk(prov: Provider, m: Bytes, n: Bytes)
    requires m in prov.names && n in prov.names && m != n
    ensures TotalAsked(prov) >= AskedFor(prov, m) + AskedFor(prov, n)
  {
    TotalWithout(prov, prov.names.Keys, m);
    TotalWithout(prov, prov.names.Keys - {m}, n);
  }

  // ---- Opening ----

  lemma {:induction false} AnnounceRoom(x: Endpoint, listing: seq<Entry>, i: nat)
    requires i <= |listing|
    ensures AnnounceFrom(x, listing, i).x.tx.resender.capacity == x.tx.resender.capacity
    decreases |listing| - i
  {
    hide SendPacket, RegistrationPayload;
    if i < |listing| {
      var r := AnnounceOne(x, listing[i], i);
      SendPacketGrows(x.tx, MANAGEMENT_CHANNEL, MANAGEMENT_LANE, RegistrationPayload(listing[i].name, i));
      if r.out.Fine? {
        AnnounceRoom(r.x, listing, i + 1);
      }
    }
  }

  lemma EndRoom(x: Endpoint)
    ensures AnnounceEnd(x).x.tx.resender.capacity == x.tx.resender.capacity
  {
    hide SendPacket;
    SendPacketGrows(x.tx, MANAGEMENT_CHANNEL, MANAGEMENT_LANE, FINAL_PAYLOAD);
  }

  /// Opening makes exactly the room that all channels ask for together, in whatever order they are
  /// listed, and panics if and only if that does not fit a `usize`.
  lemma OpeningExactly(prov: Provider, listing: seq<Entry>)
    requires prov.WellFormed() && IsListing(prov, listing)
    ensures var r := Initialize(NewEndpoint(), prov, listing);
            && (r.out.Crash? <==> TotalAsked(prov) >= USIZE)
            && (!r.out.Crash? ==> r.x.tx.resender.capacity == TotalAsked(prov))
  {
    hide IsListing, Provider.WellFormed, AnnounceFrom, AnnounceEnd, AddedCapacity, TotalAsked;
    ListingTotal(prov, listing);
    InitializeExactly(prov, listing);
    var x := WithListing(NewEndpoint(), prov, listing);
    AnnounceRoom(x, listing, 0);
    EndRoom(AnnounceFrom(x, listing, 0).x);
  }

  /// One announcement: it is stored, or the resender is full.
  lemma OneStored(tx: Tx, payload: Bytes)
    requires |payload| <= MAX_NON_SEGMENTED_PAYLOAD && Young(tx)
    ensures var r := SendPacket(tx, MANAGEMENT_CHANNEL, MANAGEMENT_LANE, payload);
            && Young(r.tx) && r.tx.resender.capacity == tx.resender.capacity
            && if tx.resender.Full() then r.out == Fail(ResenderFull)
               else r.out.Fine? && r.key.Some? && r.tx.resender.slots.Len() == tx.resender.slots.Len() + 1
  {
    hide Frame, Chunks;
  }

  /// All names from here on are short, and there is room for `n` announcements.
  ghost predicate Announceable(x: Endpoint, listing: seq<Entry>, i: nat, n: nat) {
    && (forall j :: i <= j < |listing| ==> |listing[j].name| <= MAX_NAME)
    && x.tx.resender.slots.Len() + n <= x.tx.resender.capacity
  }

  lemma {:induction false} AnnounceSucceeds(x: Endpoint, listing: seq<Entry>, i: nat)
    requires i <= |listing| < MANAGEMENT_ID_REGISTRATION && |x.local.localToGlobal| == i && Young(x.tx)
    requires x.tx.resender.slots.Len() <= x.tx.resender.capacity
    ensures var r := AnnounceFrom(x, listing, i);
            && (r.out.Fine? <==> Announceable(x, listing, i, |listing| - i))
            && (r.out.Fine? ==>
                  && Young(r.x.tx) && r.x.tx.resender.capacity == x.tx.resender.capacity
                  && r.x.tx.resender.slots.Len() == x.tx.resender.slots.Len() + |listing| - i)
    decreases |listing| - i
  {
    hide SendPacket, RegistrationPayload, Slots.Len, Young;
    if i < |listing| {
      var e := listing[i];
      if |e.name| <= MAX_NAME {
        RegistrationShort(e.name, i);
        OneStored(x.tx, RegistrationPayload(e.name, i));
        var r := AnnounceOne(x, e, i);
        if r.out.Fine? {
          YoungStays(SendPacket(x.tx, MANAGEMENT_CHANNEL, MANAGEMENT_LANE, RegistrationPayload(e.name, i)).tx, i);
          AnnounceSucceeds(r.x, listing, i + 1);
        }
      }
    }
  }

  lemma YoungStays(tx: Tx, i: nat)
    ensures Young(tx.(orders := tx.orders.Set(i, 0, 0))) == Young(tx)
  {
  }

  lemma EndSucceeds(x: Endpoint)
    requires Young(x.tx)
    ensures AnnounceEnd(x).out.Fine? <==> !x.tx.resender.Full()
  {
    hide SendPacket, R.Resender.Full;
    OneStored(x.tx, FINAL_PAYLOAD);
  }

  /// When opening succeeds: every name is within its limit, and the resender has room for one packet per
  /// channel and one for the end.
  lemma OpeningSucceeds(prov: Provider, listing: seq<Entry>)
    requires prov.WellFormed() && IsListing(prov, listing)
    ensures Initialize(NewEndpoint(), prov, listing).out.Fine?
       <==> (forall n :: n in prov.names ==> |n| <= MAX_NAME) && |prov.names| < TotalAsked(prov) < USIZE
  {
    hide Provider.WellFormed, AnnounceFrom, AnnounceEnd, AddedCapacity, TotalAsked, IsListing;
    ListingTotal(prov, listing);
    ListingLength(prov, listing);
    ListedAll(prov, listing);
    var x := WithListing(NewEndpoint(), prov, listing);
    AnnounceSucceeds(x, listing, 0);
    if AnnounceFrom(x, listing, 0).out.Fine? {
      EndSucceeds(AnnounceFrom(x, listing, 0).x);
    }
  }

  lemma ListedAll(prov: Provider, listing: seq<Entry>)
    requires IsListing(prov, listing)
    ensures |listing| == |prov.names|
    ensures (forall j :: 0 <= j < |listing| ==> |listing[j].name| <= MAX_NAME)
       <==> (forall n :: n in prov.names ==> |n| <= MAX_NAME)
  {
  }

  // ---- Every run ----

  lemma OpensRoom(c: Config, s: Sys, side: Side, all: seq<Entry>)
    requires c.Ok() && SysInv(c, s)
    requires Enabled(c.At(side), s.At(side), s.At(side.Other()), Opens(all))
    ensures var n := Act(c.At(side), s.At(side), Opens(all));
            n.phase.Up? ==> n.x.tx.resender.capacity == TotalAsked(c.At(side))
  {
    hide Initialize, Counted, Tallied, Sound, IsListing, Enumerates, Sorted, TotalAsked;
    SortedListing(c.At(side), all);
    OpeningExactly(c.At(side), Sorted(c.At(side), all));
  }

  /// Once a side is open, its resender has for ever exactly the room that its channels ask for together,
  /// and never holds more packets than that.
  lemma {:induction false} RunCapacity(c: Config, run: seq<Sys>, events: seq<Event>, i: nat, side: Side)
    requires c.Ok() && IsRun(c, run, events) && i < |run| && Unwrapped(run[i]) && run[i].At(side).phase.Up?
    ensures run[i].At(side).x.tx.resender.capacity == TotalAsked(c.At(side))
    ensures |run[i].At(side).x.tx.resender.slots.AsMap()| <= TotalAsked(c.At(side))
  {
    hide SysInv, Enabled, Act, Unwrapped, TotalAsked, Slots.AsMap, Forward, Sound, PeerOk, Good, EnvOk;
    RunSound(c, run, events, i);
    StoredFits(c, run[i], side);
    if i > 0 {
      var s, e := run[i - 1], events[i - 1];
      assert run[i] == Next(c, s, e);
      RunSound(c, run, events, i - 1);
      StepKeeps(c, s, e);
      Before(s, run[i]);
      if e.side != side {
        RunCapacity(c, run, events, i - 1, side);
      } else if e.action.Opens? {
        OpensRoom(c, s, side, e.action.all);
      } else {
        StaysUp(c, s, e);
        RunCapacity(c, run, events, i - 1, side);
      }
    }
  }

  lemma StoredFits(c: Config, s: Sys, side: Side)
    requires SysInv(c, s)
    ensures var r := s.At(side).x.tx.resender; |r.slots.AsMap()| <= r.capacity
  {
    hide Sound, Tallied, OrdersCounted;
    LenRefines(s.At(side).x.tx.resender.slots);
  }

  lemma StaysUp(c: Config, s: Sys, e: Event)
    requires c.Ok() && SysInv(c, s) && Unwrapped(s) && Unwrapped(Next(c, s, e)) && !e.action.Opens?
    requires Enabled(c.At(e.side), s.At(e.side), s.At(e.side.Other()), e.action)
    ensures s.At(e.side).phase.Up?
    ensures Next(c, s, e).At(e.side).x.tx.resender.capacity == s.At(e.side).x.tx.resender.capacity
  {
    hide PeerOk, Good, Sound, SysInv, Act, Extends, NodeOk, RecvInv, EnvOk;
    SideFacing(c, s, e.side);
    UpIsGood(c, s, e.side) by {
      OnlyUpActs(c, s, e);
    }
    OnlyUpActs(c, s, e);
    FacingPeer(c, s, e.side);
    UpActs(c.EnvOf(e.side), s.At(e.side.Other()), s.At(e.side), e.action);
    ExtendsRoom(s.At(e.side).x, Act(c.At(e.side), s.At(e.side), e.action).x);
  }

  lemma OnlyUpActs(c: Config, s: Sys, e: Event)
    requires Enabled(c.At(e.side), s.At(e.side), s.At(e.side.Other()), e.action) && !e.action.Opens?
    ensures s.At(e.side).phase.Up?
  {
  }

  lemma FacingPeer(c: Config, s: Sys, side: Side)
    requires Facing(c.EnvOf(side), s.At(side.Other()).x, s.At(side).x)
    ensures PeerOk(c.EnvOf(side), s.At(side.Other()).x)
  {
    hide PeerOk, RecvInv, UpInv, Untouched;
  }

  lemma ExtendsRoom(x: Endpoint, x': Endpoint)
    ensures Extends(x, x') ==> x'.tx.resender.capacity == x.tx.resender.capacity
  {
  }
}
