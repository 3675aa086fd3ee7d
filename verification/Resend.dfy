/** Packets kept for resending until they are acknowledged or their attempts are used up. */
module Resend {
  import opened Base
  import opened SlotKeys
  import opened SlotMaps

  datatype Buffered = Buffered(payload: Bytes, interval: nat, attempts: nat, time: nat)

  /// The clock of a packet is a `u32` and, between updates, below its interval.
  predicate ClockOk(p: Buffered) {
    p.interval < U32 && p.time < p.interval
  }

  /// An update by `delta` milliseconds makes the packet's timer expire, and it may be sent again.
  predicate DueAgain(p: Buffered, delta: nat) {
    p.time + delta >= p.interval && p.attempts > 0
  }

  /// The clock of a packet overflows: a panic.
  function Overflowing(delta: nat): Buffered -> bool {
    (p: Buffered) => p.time + delta >= U32
  }

  /// One update of one packet: what is kept of it, and the payload if it is sent again.
  function Expire(delta: nat, p: Buffered): Verdict<Buffered> {
    var time := p.time + delta;
    if time < p.interval then Verdict(Some(p.(time := time)), [])
    else if p.attempts == 0 then Verdict(None, [])
    else Verdict(if p.attempts == 1 then None else Some(p.(time := 0, attempts := p.attempts - 1)), [p.payload])
  }

  function Expiry(delta: nat): Buffered -> Verdict<Buffered> {
    p => Expire(delta, p)
  }

  // ---- The budget of one packet ----

  datatype Life = Life(packet: Option<Buffered>, resends: nat)

  /// What becomes of a packet over some updates, up to an overflow of its clock.
  function LifeOf(p: Option<Buffered>, deltas: seq<nat>): Life
    decreases |deltas|
  {
    if p.None? || deltas == [] || Overflowing(deltas[0])(p.value) then Life(p, 0)
    else
      var v := Expire(deltas[0], p.value);
      var later := LifeOf(v.kept, deltas[1..]);
      Life(later.packet, |v.log| + later.resends)
  }

  /// How often the timer of a packet with this interval expires, whatever its budget is.
  function Expiries(interval: nat, time: nat, deltas: seq<nat>): nat
    decreases |deltas|
  {
    if deltas == [] || time + deltas[0] >= U32 then 0
    else
      var time' := time + deltas[0];
      if time' < interval then Expiries(interval, time', deltas[1..]) else 1 + Expiries(interval, 0, deltas[1..])
  }

  function Min(a: nat, b: nat): nat {
    if a < b then a else b
  }

  function Max(a: nat, b: nat): nat {
    if a < b then b else a
  }

  /// Over any sequence of updates an unacknowledged packet lives until its timer has expired
  /// max(1, attempts) times; each expiry resends it while attempts are left, so resends made and
  /// attempts left always add up to the initial attempts.
  lemma {:induction false} Budget(p: Buffered, deltas: seq<nat>)
    requires ClockOk(p)
    ensures var life, n := LifeOf(Some(p), deltas), Expiries(p.interval, p.time, deltas);
            && (life.packet.Some? <==> n < Max(1, p.attempts))
            && life.resends == Min(n, p.attempts)
            && (life.packet.Some? ==> ClockOk(life.packet.value)
                                      && life.packet.value.payload == p.payload
                                      && life.resends + life.packet.value.attempts == p.attempts)
    decreases |deltas|
  {
    if deltas != [] && !Overflowing(deltas[0])(p) {
      var v := Expire(deltas[0], p);
      if v.kept.Some? {
        Budget(v.kept.value, deltas[1..]);
      } else {
        assert LifeOf(None, deltas[1..]) == Life(None, 0);
      }
    }
  }

  // ---- All packets together ----

  datatype Resender = Resender(slots: Slots<Buffered>, capacity: nat) {
    ghost predicate Valid() {
      slots.Valid()
    }

    /// No room for another packet.
    predicate Full() {
      slots.Len() == capacity
    }

    function Add(p: Buffered): Resender {
      this.(slots := slots.Put(p))
    }

    /// An update panics: the clock of some packet overflows.
    predicate Overflows(delta: nat) {
      slots.AnyOf(Overflowing(delta))
    }

    /// There is room, but the counter of the slot to be taken overflows: storing a packet panics.
    predicate Exhausted() {
      !Full() && slots.Exhausted()
    }

    function Update(delta: nat): Resender {
      this.(slots := slots.RetainIf(Expiry(delta)))
    }

    /// The payloads that an update sends again, in slot order.
    function Resent(delta: nat): seq<Bytes> {
      Logged(slots.values, Expiry(delta))
    }

    function Remove(k: Key): Resender {
      this.(slots := slots.Remove(k))
    }
  }

  function Updates(r: Resender, deltas: seq<nat>): Resender
    decreases |deltas|
  {
    if deltas == [] then r else Updates(r.Update(deltas[0]), deltas[1..])
  }

  /// None of the updates panics.
  predicate Runs(r: Resender, deltas: seq<nat>)
    decreases |deltas|
  {
    deltas == [] || (!r.Overflows(deltas[0]) && Runs(r.Update(deltas[0]), deltas[1..]))
  }

  lemma UpdateEach(r: Resender, delta: nat, k: Key)
    requires r.Valid()
    ensures r.Update(delta).Valid()
    ensures var m, m' := r.slots.AsMap(), r.Update(delta).slots.AsMap();
            && (k in m' <==> k in m && Expire(delta, m[k]).kept.Some?)
            && (k in m' ==> m'[k] == Expire(delta, m[k]).kept.value)
  {
    RetainRefines(r.slots, Expiry(delta));
  }

  lemma EmitsExactly(s: Slots<Buffered>, delta: nat, i: int, d: Bytes)
    requires s.Valid()
    ensures Emits(s.values, Expiry(delta), i, d)
       <==> 0 <= i < |s.values| && s.values[i].Some?
            && DueAgain(s.values[i].value, delta) && s.values[i].value.payload == d
  {
  }

  /// An update sends again exactly the packets whose timers expire while they have attempts left.
  lemma ResentExactly(r: Resender, delta: nat, d: Bytes)
    requires r.Valid()
    ensures d in r.Resent(delta)
       <==> exists k :: k in r.slots.AsMap() && DueAgain(r.slots.AsMap()[k], delta) && r.slots.AsMap()[k].payload == d
  {
    hide Logged, Emits, DueAgain, Expiry;
    var s, f := r.slots, Expiry(delta);
    LoggedExactly(s.values, f, d);
    if i :| Emits(s.values, f, i, d) {
      EmitsExactly(s, delta, i, d);
      assert Key(i, s.generations[i]) in s.AsMap();
    }
    if k :| k in s.AsMap() && DueAgain(s.AsMap()[k], delta) && s.AsMap()[k].payload == d {
      EmitsExactly(s, delta, k.index, d);
    }
  }

  /// While no update panics, each packet in the resender has the life that its own timer and budget give it.
  lemma {:induction false} UpdatesBudget(r: Resender, deltas: seq<nat>, k: Key)
    requires r.Valid() && k in r.slots.AsMap() && Runs(r, deltas)
    ensures Updates(r, deltas).Valid()
    ensures var m, life := Updates(r, deltas).slots.AsMap(), LifeOf(Some(r.slots.AsMap()[k]), deltas);
            (k in m <==> life.packet.Some?) && (k in m ==> m[k] == life.packet.value)
    decreases |deltas|
  {
    if deltas != [] {
      UpdateEach(r, deltas[0], k);
      var r' := r.Update(deltas[0]);
      if k in r'.slots.AsMap() {
        UpdatesBudget(r', deltas[1..], k);
      } else {
        GoneStaysGone(r', deltas[1..], k);
      }
    }
  }

  lemma {:induction false} GoneStaysGone(r: Resender, deltas: seq<nat>, k: Key)
    requires r.Valid() && k !in r.slots.AsMap()
    ensures Updates(r, deltas).Valid() && k !in Updates(r, deltas).slots.AsMap()
    decreases |deltas|
  {
    if deltas != [] {
      UpdateEach(r, deltas[0], k);
      GoneStaysGone(r.Update(deltas[0]), deltas[1..], k);
    }
  }

  /// `Overflow`: a panic.
  datatype Addition = Added(key: Key) | CapacityReached | Overflow

  class PacketResender {
    const packets: SlotMap<Buffered>
    var capacity: nat

    ghost function Model(): Resender
      reads this, packets
    {
      Resender(packets.Model(), capacity)
    }

    ghost predicate Valid()
      reads this, packets
    {
      Model().Valid()
    }

    constructor ()
      ensures Valid() && Model() == Resender(Empty(), 0) && fresh(packets)
    {
      packets := new SlotMap();
      capacity := 0;
    }

    method Add(packet: Key -> Buffered) returns (r: Addition)
      requires Valid()
      modifies packets
      ensures Valid()
      ensures r.CapacityReached? <==> old(Model()).Full()
      ensures r.Overflow? <==> old(Model()).Exhausted()
      ensures !r.Added? ==> Model() == old(Model())
      ensures r.Added? ==> r.key == old(Model().slots.NextKey()) && Model() == old(Model()).Add(packet(r.key))
    {
      LenRefines(packets.Model());
      var len := packets.Len();
      if len == capacity {
        return CapacityReached;
      }
      var key := packets.Add(packet);
      r := if key.Some? then Added(key.value) else Overflow;
    }

    /// Nothing: the clock of some packet overflows, a panic.
    method Update(delta: nat) returns (sent: Option<seq<Bytes>>)
      requires Valid()
      modifies packets
      ensures sent.None? <==> old(Model()).Overflows(delta)
      ensures sent.Some? ==>
                Valid() && Model() == old(Model()).Update(delta) && sent.value == old(Model()).Resent(delta)
    {
      sent := packets.RetainIf(Expiry(delta), Overflowing(delta));
    }

    method Remove(id: Key) returns (r: Option<Buffered>)
      requires Valid() && id.index < |packets.generations|
      modifies packets
      ensures Valid()
      ensures Model() == old(Model()).Remove(id)
      ensures r == if id in old(Model().slots.AsMap()) then Some(old(Model().slots.AsMap())[id]) else None
    {
      r := packets.Remove(id);
    }
  }
}
