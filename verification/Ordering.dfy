/** Reordering of packets: a ring buffer that hands out the contiguous front. */
module Ordering {
  import opened Base

  /// No vector of slots is longer: a slot takes 24 of the 2^63 - 1 bytes that an allocation can have.
  const MAX_VEC := 384_307_168_202_282_325

  /// What the buffer means: the packets waiting, by order number, from `start` on.
  datatype Window = Window(start: nat, pending: map<nat, Bytes>, capacity: nat) {

    /// Every waiting order lies in the window, `wrapping_sub` measuring the distance.
    ghost predicate Valid() {
      && start < USIZE
      && (forall o :: o in pending ==> o < USIZE && Distance(o, start) < Limit())
    }

    function Limit(): nat {
      if capacity < MAX_VEC then capacity else MAX_VEC
    }

    /// The order lies outside the window.
    predicate Refuses(order: nat) {
      Distance(order, start) >= capacity
    }

    /// The order lies in the window but no vector reaches as far, so growing to it panics.
    predicate Bursts(order: nat) {
      MAX_VEC <= Distance(order, start) < capacity
    }

    function Push(order: nat, packet: Bytes): Option<Window> {
      if Refuses(order) then None else Some(this.(pending := pending[order := packet]))
    }

    /// Without the front packet, which was refused.
    function Drop(): Window {
      this.(pending := pending - {start})
    }

    /// Past the front packet, which was accepted.
    function Advance(): Window {
      Window(NextOrder(start), pending - {start}, capacity)
    }
  }

  function NewWindow(capacity: nat): Window {
    Window(0, map[], capacity)
  }

  function Distance(order: nat, start: nat): nat {
    if order >= start then order - start else if order + USIZE >= start then order + USIZE - start else 0
  }

  function NextOrder(o: nat): nat {
    (o + 1) % USIZE
  }

  /// The order number `k` after the front one.
  function OrderAt(start: nat, k: nat): nat {
    (start + k) % USIZE
  }

  datatype Drained<S> = Drained(window: Window, state: S, fine: bool)

  /// Front packets go to the callback until one is missing or refused. The callback is a
  /// function of the state it captures; `false` is its error.
  function Drain<S>(w: Window, f: (S, Bytes) -> (S, bool), s: S): Drained<S>
    decreases |w.pending|
  {
    if w.start !in w.pending then Drained(w, s, true)
    else
      var (s', fine) := f(s, w.pending[w.start]);
      Smaller(w);
      if fine then Drain(w.Advance(), f, s') else Drained(w.Drop(), s', false)
  }

  lemma Smaller(w: Window)
    requires w.start in w.pending
    ensures |w.pending - {w.start}| == |w.pending| - 1
  {
    var m := w.pending - {w.start};
    assert m.Keys == w.pending.Keys - {w.start};
    assert |m| == |m.Keys| && |w.pending| == |w.pending.Keys|;
  }

  // ---- What draining delivers ----

  /// The first `k` orders from the front are all waiting.
  ghost predicate Contiguous(w: Window, k: nat) {
    forall i :: 0 <= i < k ==> OrderAt(w.start, i) in w.pending
  }

  ghost function Run(w: Window, k: nat): seq<Bytes>
    requires Contiguous(w, k)
  {
    seq(k, i requires 0 <= i < k => w.pending[OrderAt(w.start, i)])
  }

  ghost function FoldAll<S>(f: (S, Bytes) -> (S, bool), s: S, packets: seq<Bytes>): S {
    if packets == [] then s else FoldAll(f, f(s, packets[0]).0, packets[1..])
  }

  /// How many packets draining delivers.
  ghost function Count<S>(w: Window, f: (S, Bytes) -> (S, bool), s: S): nat
    decreases |w.pending|
  {
    if w.start !in w.pending then 0
    else
      var (s', fine) := f(s, w.pending[w.start]);
      Smaller(w);
      if fine then 1 + Count(w.Advance(), f, s') else 0
  }

  lemma AdvanceContiguous(w: Window, k: nat)
    requires w.Valid() && w.start in w.pending && Contiguous(w.Advance(), k)
    ensures Contiguous(w, k + 1)
    ensures Run(w, k + 1) == [w.pending[w.start]] + Run(w.Advance(), k)
  {
    forall i | 0 <= i < k + 1
      ensures OrderAt(w.start, i) in w.pending
      ensures i > 0 ==> OrderAt(w.start, i) == OrderAt(w.Advance().start, i - 1)
    {
      if i == 0 {
        assert OrderAt(w.start, 0) == w.start;
      } else {
        assert OrderAt(w.start, i) == OrderAt(w.Advance().start, i - 1);
      }
    }
  }

  lemma AdvanceValid(w: Window)
    requires w.Valid() && w.start in w.pending
    ensures w.Advance().Valid()
  {
    forall o | o in w.pending && o != w.start
      ensures Distance(o, NextOrder(w.start)) < w.Limit()
    {
    }
  }

  ghost function OrdersOf(start: nat, k: nat): set<nat>
    decreases k
  {
    if k == 0 then {} else {start} + OrdersOf(NextOrder(start), k - 1)
  }

  /// What draining `w` to `r` delivered, `k` packets in all.
  ghost predicate Delivers<S>(w: Window, f: (S, Bytes) -> (S, bool), s: S, r: Drained<S>, k: nat) {
    && Contiguous(w, k)
    && r.window.start == OrderAt(w.start, k) && r.window.capacity == w.capacity
    && if r.fine then
         && OrderAt(w.start, k) !in w.pending
         && r.window.pending == w.pending - OrdersOf(w.start, k)
         && r.state == FoldAll(f, s, Run(w, k))
       else
         && Contiguous(w, k + 1)
         && r.window.pending == w.pending - OrdersOf(w.start, k) - {OrderAt(w.start, k)}
         && r.state == FoldAll(f, s, Run(w, k + 1))
  }

  lemma DeliversStep<S>(w: Window, f: (S, Bytes) -> (S, bool), s: S, r: Drained<S>, k: nat)
    requires w.Valid() && w.start in w.pending
    requires Delivers(w.Advance(), f, f(s, w.pending[w.start]).0, r, k)
    ensures Delivers(w, f, s, r, k + 1)
  {
    NextAt(w.start, k);
    AdvanceContiguous(w, k);
    if r.fine {
      FoldStep(w, f, s, k);
      AllWaiting(w, k + 1);
    } else {
      AdvanceContiguous(w, k + 1);
      FoldStep(w, f, s, k + 1);
    }
  }

  lemma NextAt(start: nat, k: nat)
    ensures OrderAt(start, k + 1) == OrderAt(NextOrder(start), k)
  {
  }

  lemma FoldStep<S>(w: Window, f: (S, Bytes) -> (S, bool), s: S, k: nat)
    requires w.Valid() && w.start in w.pending && Contiguous(w.Advance(), k) && Contiguous(w, k + 1)
    ensures FoldAll(f, s, Run(w, k + 1)) == FoldAll(f, f(s, w.pending[w.start]).0, Run(w.Advance(), k))
  {
    AdvanceContiguous(w, k);
    assert Run(w, k + 1)[1..] == Run(w.Advance(), k);
  }

  /// The run cannot come round to its own start: the window is narrower than the order space.
  lemma AllWaiting(w: Window, k: nat)
    requires w.Valid() && 0 < k && Contiguous(w, k)
    ensures OrderAt(w.start, k) != w.start
  {
    DistanceOfOrderAt(w.start, w.Limit());
    assert OrderAt(w.start, w.Limit()) !in w.pending;
    assert k <= w.Limit();
    DistanceOfOrderAt(w.start, k);
  }

  /// Draining delivers the contiguous run from the front, in order, up to the first gap, where it
  /// succeeds, or up to the first packet refused, and then exactly that packet is lost besides.
  lemma {:induction false} DrainDelivers<S>(w: Window, f: (S, Bytes) -> (S, bool), s: S)
    requires w.Valid()
    ensures Delivers(w, f, s, Drain(w, f, s), Count(w, f, s))
    decreases |w.pending|
  {
    assert OrderAt(w.start, 0) == w.start;
    if w.start in w.pending {
      var (s', fine) := f(s, w.pending[w.start]);
      Smaller(w);
      if fine {
        AdvanceValid(w);
        DrainDelivers(w.Advance(), f, s');
        DeliversStep(w, f, s, Drain(w.Advance(), f, s'), Count(w.Advance(), f, s'));
      } else {
        assert Run(w, 1) == [w.pending[w.start]];
        assert FoldAll(f, s, Run(w, 1)) == FoldAll(f, s', []);
      }
    } else {
      assert w.pending - {} == w.pending;
    }
  }

  // ---- The ring buffer ----

  function Lookup(m: map<nat, Bytes>, o: nat): Option<Bytes> {
    if o in m then Some(m[o]) else None
  }

  /// The index of the slot for the order `k` after the front, in a ring of `n` slots from `d`.
  function Slot(d: nat, n: nat, k: nat): nat
    requires d < n && k < n
  {
    if d + k < n then d + k else d + k - n
  }

  function At(vec: seq<Option<Bytes>>, d: nat, k: nat): Option<Bytes>
    requires d < |vec| && k < |vec|
  {
    vec[Slot(d, |vec|, k)]
  }

  /// Slot by slot, the ring holds what the map says about the orders from `start` on.
  ghost predicate Ring(vec: seq<Option<Bytes>>, d: nat, start: nat, pending: map<nat, Bytes>) {
    && |vec| <= MAX_VEC && start < USIZE
    && (if vec == [] then d == 0 else d < |vec|)
    && (forall o :: o in pending ==> o < USIZE && Distance(o, start) < |vec|)
    && (forall k {:trigger At(vec, d, k)} :: 0 <= k < |vec| ==> At(vec, d, k) == Lookup(pending, OrderAt(start, k)))
  }

  lemma DistanceOfOrderAt(start: nat, k: nat)
    requires start < USIZE && k < USIZE
    ensures OrderAt(start, k) < USIZE && Distance(OrderAt(start, k), start) == k
  {
  }

  lemma OrderAtDistance(start: nat, order: nat)
    requires start < USIZE && order < USIZE
    ensures OrderAt(start, Distance(order, start)) == order
  {
  }

  lemma RingFlattens(vec: seq<Option<Bytes>>, d: nat, start: nat, pending: map<nat, Bytes>)
    requires Ring(vec, d, start, pending)
    ensures Ring(vec[d..] + vec[..d], 0, start, pending)
  {
    var flat := vec[d..] + vec[..d];
    forall k | 0 <= k < |flat|
      ensures At(flat, 0, k) == Lookup(pending, OrderAt(start, k))
    {
      assert At(flat, 0, k) == At(vec, d, k);
    }
  }

  lemma RingGrows(vec: seq<Option<Bytes>>, start: nat, pending: map<nat, Bytes>)
    requires Ring(vec, 0, start, pending) && |vec| < MAX_VEC
    ensures Ring(vec + [None], 0, start, pending)
  {
    var grown := vec + [None];
    forall k | 0 <= k < |grown|
      ensures At(grown, 0, k) == Lookup(pending, OrderAt(start, k))
    {
      if k < |vec| {
        assert At(grown, 0, k) == At(vec, 0, k);
      } else {
        DistanceOfOrderAt(start, k);
      }
    }
  }

  lemma RingStores(vec: seq<Option<Bytes>>, d: nat, start: nat, pending: map<nat, Bytes>, order: nat, packet: Bytes)
    requires Ring(vec, d, start, pending) && order < USIZE && Distance(order, start) < |vec|
    ensures Ring(vec[Slot(d, |vec|, Distance(order, start)) := Some(packet)], d, start, pending[order := packet])
  {
    var at := Distance(order, start);
    var stored := vec[Slot(d, |vec|, at) := Some(packet)];
    OrderAtDistance(start, order);
    forall k | 0 <= k < |stored|
      ensures At(stored, d, k) == Lookup(pending[order := packet], OrderAt(start, k))
    {
      DistanceOfOrderAt(start, k);
      if k != at {
        assert At(stored, d, k) == At(vec, d, k);
      }
    }
  }

  lemma RingTakes(vec: seq<Option<Bytes>>, d: nat, start: nat, pending: map<nat, Bytes>)
    requires Ring(vec, d, start, pending) && vec != []
    ensures vec[d] == Lookup(pending, start)
    ensures Ring(vec[d := None], d, start, pending - {start})
  {
    var taken := vec[d := None];
    assert At(vec, d, 0) == vec[d] && OrderAt(start, 0) == start;
    forall k | 0 <= k < |taken|
      ensures At(taken, d, k) == Lookup(pending - {start}, OrderAt(start, k))
    {
      DistanceOfOrderAt(start, k);
      if k != 0 {
        DistanceOfOrderAt(start, 0);
        assert At(taken, d, k) == At(vec, d, k);
      }
    }
  }

  lemma SlotAfter(d: nat, n: nat, k: nat)
    requires d < n && k < n
    ensures (d + 1) % n < n
    ensures Slot((d + 1) % n, n, k) == if k + 1 < n then Slot(d, n, k + 1) else d
  {
    if d + 1 == n {
      assert (d + 1) % n == 0;
    } else {
      assert (d + 1) % n == d + 1;
    }
  }

  lemma RingSkips(vec: seq<Option<Bytes>>, d: nat, start: nat, pending: map<nat, Bytes>)
    requires Ring(vec, d, start, pending) && vec != [] && start !in pending
    ensures (d + 1) % |vec| < |vec|
    ensures Ring(vec, (d + 1) % |vec|, NextOrder(start), pending)
  {
    var d', start' := (d + 1) % |vec|, NextOrder(start);
    SlotAfter(d, |vec|, 0);
    forall k | 0 <= k < |vec|
      ensures At(vec, d', k) == Lookup(pending, OrderAt(start', k))
    {
      SlotAfter(d, |vec|, k);
      DistanceOfOrderAt(start, k + 1);
      assert OrderAt(start', k) == OrderAt(start, k + 1);
      if k + 1 < |vec| {
        assert At(vec, d', k) == At(vec, d, k + 1);
      } else {
        assert At(vec, d', k) == At(vec, d, 0) && OrderAt(start, 0) == start;
      }
    }
    forall o | o in pending
      ensures Distance(o, start') < |vec|
    {
      assert Distance(o, start) != 0;
    }
  }

  /// `Burst` is a panic: no vector reaches the order.
  datatype PushResult = Pushed | CapacityReached | Burst

  class PacketOrderer {
    var vec: seq<Option<Bytes>>
    var orderStart: nat
    var dequeStart: nat
    const capacity: nat
    ghost var window: Window

    ghost predicate Valid()
      reads this
    {
      && |vec| <= capacity
      && window == Window(orderStart, window.pending, capacity)
      && Ring(vec, dequeStart, orderStart, window.pending)
    }

    constructor (capacity: nat)
      ensures Valid() && window == NewWindow(capacity) && this.capacity == capacity
    {
      vec := [];
      orderStart, dequeStart := 0, 0;
      this.capacity := capacity;
      window := NewWindow(capacity);
    }

    /// Starts the ring at index 0 without changing what it holds.
    method Flatten()
      requires Valid()
      modifies this
      ensures Valid() && window == old(window) && dequeStart == 0 && |vec| == |old(vec)|
    {
      if dequeStart == 0 {
        return;
      }
      RingFlattens(vec, dequeStart, orderStart, window.pending);
      vec := vec[dequeStart..] + vec[..dequeStart];
      dequeStart := 0;
    }

    /// A push within the window is a map update; one outside it, or out of reach, changes nothing.
    method Push(order: nat, packet: Bytes) returns (r: PushResult)
      requires Valid() && order < USIZE
      modifies this
      ensures Valid()
      ensures r == CapacityReached <==> old(window).Refuses(order)
      ensures r == Burst <==> old(window).Bursts(order)
      ensures window == if r == Pushed then old(window).Push(order, packet).value else old(window)
      ensures r == Pushed ==> vec != []
    {
      var distance := Distance(order, orderStart);
      if distance >= capacity {
        return CapacityReached;
      }
      if distance >= MAX_VEC {
        return Burst;
      }
      if distance >= |vec| {
        Flatten();
        while |vec| <= distance
          invariant Valid() && dequeStart == 0 && |vec| <= distance + 1
          invariant window == old(window)
          decreases distance + 1 - |vec|
        {
          RingGrows(vec, orderStart, window.pending);
          vec := vec + [None];
        }
      }
      var l := |vec|;
      SlotByModulus(dequeStart, l, distance);
      RingStores(vec, dequeStart, orderStart, window.pending, order, packet);
      vec := vec[(dequeStart + distance) % USIZE % l := Some(packet)];
      window := window.Push(order, packet).value;
      r := Pushed;
    }

    /// Takes the front packet out of the ring, leaving its slot empty.
    method Take() returns (front: Option<Bytes>)
      requires Valid() && vec != []
      modifies this
      ensures Valid() && vec != []
      ensures front == Lookup(old(window.pending), old(window.start))
      ensures window == old(window).Drop()
    {
      RingTakes(vec, dequeStart, orderStart, window.pending);
      front := vec[dequeStart];
      vec := vec[dequeStart := None];
      window := window.Drop();
    }

    /// Moves on to the next order; the front slot is empty and becomes the last one.
    method Skip()
      requires Valid() && vec != [] && window.start !in window.pending
      modifies this
      ensures Valid() && vec != []
      ensures window == old(window).Advance()
    {
      RingSkips(vec, dequeStart, orderStart, window.pending);
      orderStart := (orderStart + 1) % USIZE;
      dequeStart := (dequeStart + 1) % |vec|;
      assert window.pending - {window.start} == window.pending;
      window := window.Advance();
    }

    /// Delivers the contiguous front to the callback.
    method Retain<S>(f: (S, Bytes) -> (S, bool), s: S) returns (state: S, fine: bool)
      requires Valid() && vec != []
      modifies this
      ensures Valid() && vec != []
      ensures Drained(window, state, fine) == Drain(old(window), f, s)
    {
      state := s;
      fine := true;
      while true
        invariant Valid() && vec != [] && fine
        invariant Drain(window, f, state) == Drain(old(window), f, s)
        decreases |window.pending|
      {
        ghost var before := window;
        var element := Take();
        if element.None? {
          assert window.pending == before.pending;
          return;
        }
        Smaller(before);
        var (state', accepted) := f(state, element.value);
        state := state';
        if !accepted {
          fine := false;
          return;
        }
        Skip();
        assert window == before.Advance();
      }
    }
  }

  lemma Mod(a: nat, n: nat)
    requires 0 < n && a < 2 * n
    ensures a % n == if a < n then a else a - n
  {
    if a >= n {
      assert a == n * 1 + (a - n);
      assert a / n == 1;
    }
  }

  lemma SlotByModulus(d: nat, n: nat, k: nat)
    requires d < n && k < n && n <= MAX_VEC
    ensures (d + k) % USIZE % n == Slot(d, n, k)
  {
    Mod(d + k, USIZE);
    Mod(d + k, n);
  }
}
