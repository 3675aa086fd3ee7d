/** A generational arena: values in numbered slots, named by keys that outlive their slot. */
module SlotMaps {
  import opened Base
  import opened SlotKeys

  /// What a callback that may change a value in place decides about it, and what it emits.
  datatype Verdict<+T> = Verdict(kept: Option<T>, log: seq<Bytes>)

  datatype Slots<T> = Slots(values: seq<Option<T>>, generations: seq<nat>, free: seq<nat>) {

    /// The free list names every empty slot exactly once.
    ghost predicate Valid() {
      && |values| <= |generations|
      && (forall i :: 0 <= i < |generations| ==> generations[i] < U32)
      && Distinct(free)
      && (forall j :: 0 <= j < |free| ==> free[j] < |values| && values[free[j]].None?)
      && (forall i :: 0 <= i < |values| && values[i].None? ==> i in free)
    }

    function Len(): int {
      |values| - |free|
    }

    /// The slot that the next insertion takes, and the key it returns.
    function NextIndex(): nat {
      if free != [] then free[|free| - 1] else |values|
    }

    function NextGeneration(): nat {
      if NextIndex() < |generations| then Next32(generations[NextIndex()]) else 0
    }

    function NextKey(): Key {
      Key(NextIndex() % U32, NextGeneration())
    }

    /// The generation counter of the slot taken next is at its maximum: an insertion panics.
    predicate Exhausted() {
      NextIndex() < |generations| && generations[NextIndex()] == U32 - 1
    }

    /// The arena after an insertion of `v`.
    function Put(v: T): Slots<T> {
      var i := NextIndex();
      var generations' := if i < |generations| then generations[i := NextGeneration()] else generations + [0];
      if free == [] then
        Slots(values + [Some(v)], generations', free)
      else if i < |values| then
        Slots(values[i := Some(v)], generations', free[..|free| - 1])
      else
        this
    }

    function Get(k: Key): Option<T> {
      if k.index < |values| && k.index < |generations| && generations[k.index] == k.generation
      then values[k.index] else None
    }

    function Remove(k: Key): Slots<T> {
      if Get(k).Some? then Slots(values[k.index := None], generations, free + [k.index]) else this
    }

    /// Keeps, updated, the values that the callback keeps; the others leave their slots.
    function RetainIf(f: T -> Verdict<T>): Slots<T> {
      Slots(Kept(values, f), generations, free + Dropped(values, f))
    }

    /// Some value has this property.
    predicate AnyOf(p: T -> bool) {
      exists i :: 0 <= i < |values| && values[i].Some? && p(values[i].value)
    }

    function Clear(): Slots<T> {
      Slots([], generations, [])
    }

    ghost function AsMap(): map<Key, T> {
      map i | 0 <= i < |values| && i < |generations| && values[i].Some? :: Key(i, generations[i]) := values[i].value
    }

    /// The keys that have been issued for a slot are those up to its current generation.
    predicate Within(k: Key) {
      k.index < |generations| && k.generation <= generations[k.index]
    }
  }

  function Empty<T>(): Slots<T> {
    Slots([], [], [])
  }

  function Kept<T>(values: seq<Option<T>>, f: T -> Verdict<T>): (r: seq<Option<T>>)
    ensures |r| == |values|
    ensures forall i :: 0 <= i < |r| ==> r[i] == if values[i].Some? then f(values[i].value).kept else None
  {
    if values == [] then []
    else
      var last := values[|values| - 1];
      Kept(values[..|values| - 1], f) + [if last.Some? then f(last.value).kept else None]
  }

  /// What the callback emits, in slot order.
  function Logged<T>(values: seq<Option<T>>, f: T -> Verdict<T>): seq<Bytes> {
    if values == [] then []
    else
      var last := values[|values| - 1];
      Logged(values[..|values| - 1], f) + if last.Some? then f(last.value).log else []
  }

  /// The slot has a value for which the callback emits `d`.
  ghost predicate Emits<T>(values: seq<Option<T>>, f: T -> Verdict<T>, i: int, d: Bytes) {
    0 <= i < |values| && values[i].Some? && d in f(values[i].value).log
  }

  lemma {:induction false} LoggedExactly<T>(values: seq<Option<T>>, f: T -> Verdict<T>, d: Bytes)
    ensures d in Logged(values, f) <==> exists i :: Emits(values, f, i, d)
  {
    if values != [] {
      var n := |values| - 1;
      LoggedExactly(values[..n], f, d);
      if d in Logged(values[..n], f) {
        var i :| Emits(values[..n], f, i, d);
        assert Emits(values, f, i, d);
      } else if d in Logged(values, f) {
        assert Emits(values, f, n, d);
      }
      if i :| Emits(values, f, i, d) {
        assert i < n ==> Emits(values[..n], f, i, d);
      }
    }
  }

  /// The slots that become empty, in slot order.
  function Dropped<T>(values: seq<Option<T>>, f: T -> Verdict<T>): (r: seq<nat>)
    ensures forall j :: 0 <= j < |r| ==> r[j] < |values| && values[r[j]].Some? && f(values[r[j]].value).kept.None?
    ensures forall i :: 0 <= i < |values| && values[i].Some? && f(values[i].value).kept.None? ==> i in r
    ensures Distinct(r)
  {
    if values == [] then []
    else
      var n := |values| - 1;
      var before := Dropped(values[..n], f);
      if values[n].Some? && f(values[n].value).kept.None? then before + [n] else before
  }

  // ---- Refinement of a finite map ----

  lemma PutValid<T>(s: Slots<T>, v: T)
    requires s.Valid()
    ensures s.Put(v).Valid()
  {
    var t, i := s.Put(v), s.NextIndex();
    forall j | 0 <= j < |t.values| && t.values[j].None?
      ensures j in t.free
    {
      assert j in s.free;
      var x :| 0 <= x < |s.free| && s.free[x] == j;
      assert x < |s.free| - 1;
      assert t.free[x] == j;
    }
  }

  lemma PutSlots<T>(s: Slots<T>, v: T)
    requires s.Valid() && s.NextIndex() < U32
    ensures var t, i := s.Put(v), s.NextIndex();
            && i < |t.values| <= |t.generations| && |s.values| <= |t.values| && (i < |s.values| ==> s.values[i].None?)
            && s.NextKey() == Key(i, t.generations[i]) && t.values[i] == Some(v)
            && (forall j :: 0 <= j < |t.values| && j != i ==>
                  j < |s.values| && t.values[j] == s.values[j] && t.generations[j] == s.generations[j])
  {
  }

  lemma PutMap<T>(s: Slots<T>, v: T)
    requires s.Valid() && s.NextIndex() < U32
    ensures s.NextKey() !in s.AsMap()
    ensures s.Put(v).AsMap() == s.AsMap()[s.NextKey() := v]
  {
    var t, i := s.Put(v), s.NextIndex();
    PutSlots(s, v);
    hide Slots.Valid, Slots.NextIndex, Slots.NextKey, Slots.Put;
    var m := s.AsMap()[s.NextKey() := v];
    forall k | k in t.AsMap()
      ensures k in m && t.AsMap()[k] == m[k]
    {
      assert k == Key(k.index, t.generations[k.index]);
      if k.index != i {
        assert k == Key(k.index, s.generations[k.index]);
      }
    }
    forall k | k in m
      ensures k in t.AsMap()
    {
      if k != s.NextKey() {
        assert k.index != i;
      }
      assert k == Key(k.index, t.generations[k.index]);
    }
  }

  lemma PutRefines<T>(s: Slots<T>, v: T)
    requires s.Valid() && s.NextIndex() < U32
    ensures s.Put(v).Valid()
    ensures s.NextKey() !in s.AsMap()
    ensures s.Put(v).AsMap() == s.AsMap()[s.NextKey() := v]
  {
    PutValid(s, v);
    PutMap(s, v);
  }

  lemma GetRefines<T>(s: Slots<T>, k: Key)
    requires s.Valid()
    ensures s.Get(k) == if k in s.AsMap() then Some(s.AsMap()[k]) else None
  {
    if s.Get(k).Some? {
      assert k == Key(k.index, s.generations[k.index]);
    }
  }

  lemma RemoveValid<T>(s: Slots<T>, k: Key)
    requires s.Valid()
    ensures s.Remove(k).Valid()
  {
    if s.Get(k).Some? {
      var t := s.Remove(k);
      assert t.free[|t.free| - 1] == k.index;
      forall i | 0 <= i < |t.values| && t.values[i].None?
        ensures i in t.free
      {
        if i != k.index {
          var x :| 0 <= x < |s.free| && s.free[x] == i;
          assert t.free[x] == i;
        }
      }
    }
  }

  lemma RemoveMap<T>(s: Slots<T>, k: Key)
    requires s.Valid()
    ensures s.Remove(k).AsMap() == s.AsMap() - {k}
  {
    var t := s.Remove(k);
    GetRefines(s, k);
    if s.Get(k).Some? {
      hide Slots.Valid;
      assert t.values == s.values[k.index := None] && t.generations == s.generations;
      assert k == Key(k.index, s.generations[k.index]);
      hide Slots.Get, Slots.Remove;
      forall k'
        ensures k' in t.AsMap() <==> k' in s.AsMap() && k' != k
      {
        if k' in s.AsMap() && k' != k {
          assert k'.index != k.index;
          assert k' == Key(k'.index, t.generations[k'.index]);
        }
      }
    }
  }

  lemma RemoveRefines<T>(s: Slots<T>, k: Key)
    requires s.Valid()
    ensures s.Remove(k).Valid()
    ensures s.Remove(k).AsMap() == s.AsMap() - {k}
  {
    RemoveValid(s, k);
    RemoveMap(s, k);
  }

  lemma RetainRefines<T>(s: Slots<T>, f: T -> Verdict<T>)
    requires s.Valid()
    ensures s.RetainIf(f).Valid()
    ensures forall k :: k in s.RetainIf(f).AsMap() <==> k in s.AsMap() && f(s.AsMap()[k]).kept.Some?
    ensures forall k :: k in s.RetainIf(f).AsMap() ==> s.RetainIf(f).AsMap()[k] == f(s.AsMap()[k]).kept.value
  {
    var t := s.RetainIf(f);
    var dropped := Dropped(s.values, f);
    assert t.free == s.free + dropped;
    forall i, j | 0 <= i < j < |t.free|
      ensures t.free[i] != t.free[j]
    {
      if i < |s.free| <= j {
        assert s.values[t.free[i]].None? && s.values[t.free[j]].Some?;
      }
    }
    forall i | 0 <= i < |t.values| && t.values[i].None?
      ensures i in t.free
    {
      assert i in s.free || i in dropped;
    }
    forall k | k in s.AsMap() && f(s.AsMap()[k]).kept.Some?
      ensures k in t.AsMap()
    {
      assert k == Key(k.index, t.generations[k.index]);
    }
  }

  lemma ClearRefines<T>(s: Slots<T>)
    requires s.Valid()
    ensures s.Clear().Valid() && s.Clear().AsMap() == map[]
    ensures forall k :: s.Clear().Get(k) == None
  {
  }

  /// A key that the map does not hold, whether removed, cleared or superseded, finds nothing.
  lemma StaleKeyFindsNothing<T>(s: Slots<T>, k: Key)
    requires s.Valid() && k !in s.AsMap()
    ensures s.Get(k) == None && s.Remove(k) == s
  {
    GetRefines(s, k);
  }

  ghost function Live<T>(s: Slots<T>): set<nat> {
    set i: nat | i < |s.values| && s.values[i].Some?
  }

  ghost function Elements(xs: seq<nat>): (r: set<nat>)
    requires Distinct(xs)
    ensures forall x :: x in r <==> x in xs
    ensures |r| == |xs|
  {
    if xs == [] then {}
    else
      var n := |xs| - 1;
      assert xs == xs[..n] + [xs[n]];
      Elements(xs[..n]) + {xs[n]}
  }

  ghost function Below(n: nat): (r: set<nat>)
    ensures forall i: nat :: i in r <==> i < n
    ensures |r| == n
  {
    if n == 0 then {} else Below(n - 1) + {n - 1}
  }

  lemma {:induction false} KeyCard<T>(m: map<Key, T>, live: set<nat>, generations: seq<nat>)
    requires forall i :: i in live ==> i < |generations|
    requires forall k :: k in m <==> k.index in live && k.generation == generations[k.index]
    ensures |m| == |live|
    decreases |live|
  {
    if live == {} {
      assert m == map[];
    } else {
      var i :| i in live;
      var k := Key(i, generations[i]);
      assert k in m;
      KeyCard(m - {k}, live - {i}, generations);
      assert |m - {k}| == |m| - 1 by {
        assert (m - {k}).Keys == m.Keys - {k};
        assert |m.Keys| == |m|;
        assert |(m - {k}).Keys| == |m - {k}|;
      }
    }
  }

  lemma LiveCard<T>(s: Slots<T>)
    requires s.Valid()
    ensures |Live(s)| + |s.free| == |s.values|
  {
    var free := Elements(s.free);
    assert Live(s) + free == Below(|s.values|);
    assert Live(s) * free == {};
    assert |Live(s)| + |free| == |Live(s) + free|;
  }

  /// `len`, computed from two lengths, counts the entries.
  lemma LenRefines<T>(s: Slots<T>)
    requires s.Valid()
    ensures s.Len() == |s.AsMap()|
  {
    LiveCard(s);
    forall k: Key
      ensures k in s.AsMap() <==> k.index in Live(s) && k.generation == s.generations[k.index]
    {
      if k.index in Live(s) && k.generation == s.generations[k.index] {
        assert k == Key(k.index, s.generations[k.index]);
      }
    }
    KeyCard(s.AsMap(), Live(s), s.generations);
  }

  /// `s` is being filtered and its first `i` slots are done.
  ghost predicate RetainedTo<T>(s: Slots<T>, f: T -> Verdict<T>, i: nat, t: Slots<T>, log: seq<Bytes>)
    requires i <= |s.values|
  {
    && t.values == Kept(s.values[..i], f) + s.values[i..]
    && t.generations == s.generations
    && t.free == s.free + Dropped(s.values[..i], f)
    && log == Logged(s.values[..i], f)
  }

  function RetainSlot<T>(t: Slots<T>, f: T -> Verdict<T>, i: nat): Slots<T>
    requires i < |t.values|
  {
    match t.values[i]
    case None => t
    case Some(v) =>
      Slots(t.values[i := f(v).kept], t.generations, t.free + if f(v).kept.None? then [i] else [])
  }

  lemma KeptStep<T>(was: seq<Option<T>>, f: T -> Verdict<T>, i: nat)
    requires i < |was|
    ensures Kept(was[..i + 1], f) == Kept(was[..i], f) + [if was[i].Some? then f(was[i].value).kept else None]
    ensures Logged(was[..i + 1], f) == Logged(was[..i], f) + if was[i].Some? then f(was[i].value).log else []
    ensures Dropped(was[..i + 1], f)
         == Dropped(was[..i], f) + if was[i].Some? && f(was[i].value).kept.None? then [i] else []
  {
    assert was[..i + 1][..i] == was[..i] && was[..i + 1][i] == was[i];
  }

  lemma Replaced<T>(front: seq<T>, was: seq<T>, i: nat, now: seq<T>, y: T)
    requires i < |was| && |front| == i && now == front + was[i..]
    ensures |now| == |was| && now[i] == was[i]
    ensures now[i := y] == (front + [y]) + was[i + 1..]
  {
  }

  lemma RetainedValues<T>(was: seq<Option<T>>, f: T -> Verdict<T>, i: nat, now: seq<Option<T>>)
    requires i < |was| && now == Kept(was[..i], f) + was[i..]
    ensures |now| == |was| && now[i] == was[i]
    ensures now[i := if was[i].Some? then f(was[i].value).kept else None] == Kept(was[..i + 1], f) + was[i + 1..]
  {
    hide Kept, Dropped, Logged;
    KeptStep(was, f, i);
    Replaced(Kept(was[..i], f), was, i, now, if was[i].Some? then f(was[i].value).kept else None);
  }

  lemma RetainStep<T>(s: Slots<T>, f: T -> Verdict<T>, i: nat, t: Slots<T>, log: seq<Bytes>)
    requires i < |s.values| && RetainedTo(s, f, i, t, log)
    ensures |t.values| == |s.values| && t.values[i] == s.values[i]
    ensures var more := if t.values[i].Some? then f(t.values[i].value).log else [];
            RetainedTo(s, f, i + 1, RetainSlot(t, f, i), log + more)
  {
    hide Kept, Dropped, Logged;
    KeptStep(s.values, f, i);
    RetainedValues(s.values, f, i, t.values);
    var dropped, was := Dropped(s.values[..i], f), s.values[i];
    assert s.free + dropped + [i] == s.free + (dropped + [i]);
    assert was.None? ==> t.values[i := None] == t.values;
    assert t.free + [] == t.free && log + [] == log && dropped + [] == dropped;
  }

  /// The callback does not panic on the first `i` values.
  ghost predicate CalmTo<T>(values: seq<Option<T>>, panics: T -> bool, i: nat)
    requires i <= |values|
  {
    forall j :: 0 <= j < i && values[j].Some? ==> !panics(values[j].value)
  }

  lemma CalmStep<T>(s: Slots<T>, panics: T -> bool, i: nat)
    requires i < |s.values| && CalmTo(s.values, panics, i)
    ensures if s.values[i].Some? && panics(s.values[i].value) then s.AnyOf(panics) else CalmTo(s.values, panics, i + 1)
  {
  }

  lemma CalmDone<T>(s: Slots<T>, panics: T -> bool)
    ensures CalmTo(s.values, panics, 0) && (CalmTo(s.values, panics, |s.values|) ==> !s.AnyOf(panics))
  {
  }

  lemma RetainDone<T>(s: Slots<T>, f: T -> Verdict<T>, t: Slots<T>, log: seq<Bytes>)
    ensures RetainedTo(s, f, 0, s, [])
    ensures RetainedTo(s, f, |s.values|, t, log) ==> t == s.RetainIf(f) && log == Logged(s.values, f)
  {
    assert s.values[..0] == [] && s.values[0..] == s.values;
    assert s.values[..|s.values|] == s.values && s.values[|s.values|..] == [];
  }

  // ---- Freshness of keys ----

  ghost predicate Exact<T>(s: Slots<T>, past: seq<Key>) {
    forall k :: k in past <==> s.Within(k)
  }

  /// The key for the next insertion is one issued before exactly when the slot's generation counter is
  /// at its maximum, and then the insertion panics.
  lemma PutFreshness<T>(s: Slots<T>, v: T, past: seq<Key>)
    requires s.Valid() && s.NextIndex() < U32 && Exact(s, past)
    ensures s.NextKey() in past <==> s.Exhausted()
    ensures !s.Exhausted() ==> Exact(s.Put(v), past + [s.NextKey()])
  {
    var k, t := s.NextKey(), s.Put(v);
    assert k in past <==> s.Within(k);
    if !s.Exhausted() {
      forall k' ensures k' in past + [k] <==> t.Within(k') {
        assert k' in past <==> s.Within(k');
      }
    }
  }

  datatype Op<!T> = Insert(value: T) | Delete(key: Key) | Retain(f: T -> Verdict<T>) | Wipe

  function Apply<T>(s: Slots<T>, op: Op<T>): Slots<T> {
    match op
    case Insert(v) => s.Put(v)
    case Delete(k) => s.Remove(k)
    case Retain(f) => s.RetainIf(f)
    case Wipe => s.Clear()
  }

  lemma ApplyValid<T>(s: Slots<T>, op: Op<T>)
    requires s.Valid() && (op.Insert? ==> s.NextIndex() < U32)
    ensures Apply(s, op).Valid()
  {
    match op
    case Insert(v) => PutRefines(s, v);
    case Delete(k) => RemoveRefines(s, k);
    case Retain(f) => RetainRefines(s, f);
    case Wipe =>
  }

  /// The operation panics.
  predicate Halts<T>(s: Slots<T>, op: Op<T>) {
    op.Insert? && s.Exhausted()
  }

  /// Every insertion of the sequence finds a slot number that fits the key's index.
  ghost predicate IndexesFit<T>(s: Slots<T>, ops: seq<Op<T>>)
    requires s.Valid()
    decreases |ops|
  {
    ops == [] || Halts(s, ops[0]) ||
    ((ops[0].Insert? ==> s.NextIndex() < U32) &&
     (ApplyValid(s, ops[0]); IndexesFit(Apply(s, ops[0]), ops[1..])))
  }

  /// The keys returned by the insertions of a sequence of operations, up to a panic.
  ghost function Issued<T>(s: Slots<T>, ops: seq<Op<T>>): seq<Key>
    requires s.Valid() && IndexesFit(s, ops)
    decreases |ops|
  {
    if ops == [] || Halts(s, ops[0]) then []
    else
      ApplyValid(s, ops[0]);
      (if ops[0].Insert? then [s.NextKey()] else []) + Issued(Apply(s, ops[0]), ops[1..])
  }

  lemma {:induction false} IssuedAfter<T>(s: Slots<T>, ops: seq<Op<T>>, past: seq<Key>)
    requires s.Valid() && IndexesFit(s, ops) && Exact(s, past) && Distinct(past)
    ensures Distinct(past + Issued(s, ops))
    decreases |ops|
  {
    if ops == [] || Halts(s, ops[0]) {
      assert past + [] == past;
    } else {
      ApplyValid(s, ops[0]);
      var t, tail := Apply(s, ops[0]), ops[1..];
      if ops[0].Insert? {
        var k := s.NextKey();
        PutFreshness(s, ops[0].value, past);
        assert past + Issued(s, ops) == past + [k] + Issued(t, tail);
        IssuedAfter(t, tail, past + [k]);
      } else {
        assert Issued(s, ops) == Issued(t, tail);
        assert forall k :: s.Within(k) <==> t.Within(k);
        IssuedAfter(t, tail, past);
      }
    }
  }

  /// Over the whole life of an arena, through removals and clears, no key is issued twice.
  lemma LifetimeFreshness<T>(ops: seq<Op<T>>)
    requires IndexesFit(Empty<T>(), ops)
    ensures Distinct(Issued(Empty<T>(), ops))
  {
    IssuedAfter(Empty<T>(), ops, []);
    assert [] + Issued(Empty<T>(), ops) == Issued(Empty<T>(), ops);
  }

  // ---- The arena in place ----

  class SlotMap<T> {
    var values: seq<Option<T>>
    var generations: seq<nat>
    var freeSlots: seq<nat>

    ghost function Model(): Slots<T>
      reads this
    {
      Slots(values, generations, freeSlots)
    }

    ghost predicate Valid()
      reads this
    {
      Model().Valid()
    }

    constructor ()
      ensures Valid() && Model() == Empty()
    {
      values, generations, freeSlots := [], [], [];
    }

    method Len() returns (n: nat)
      requires Valid()
      ensures n == |Model().AsMap()|
    {
      LenRefines(Model());
      n := |values| - |freeSlots|;
    }

    method Get(key: Key) returns (r: Option<T>)
      requires Valid()
      ensures r == if key in Model().AsMap() then Some(Model().AsMap()[key]) else None
    {
      GetRefines(Model(), key);
      if key.index >= |values| {
        return None;
      }
      r := values[key.index];
      if generations[key.index] != key.generation {
        r := None;
      }
    }

    /// The value may depend on its own key. No key: the generation counter overflows, a panic.
    method Add(value: Key -> T) returns (r: Option<Key>)
      requires Valid()
      modifies this
      ensures Valid()
      ensures r.None? <==> old(Model()).Exhausted()
      ensures r.None? ==> Model() == old(Model())
      ensures r.Some? ==> r.value == old(Model().NextKey()) && Model() == old(Model()).Put(value(r.value))
      ensures r.Some? && old(Model().NextIndex()) < U32 ==>
                && r.value !in old(Model().AsMap())
                && Model().AsMap() == old(Model().AsMap())[r.value := value(r.value)]
    {
      ghost var was := Model();
      var key: Key;
      if freeSlots != [] {
        var free := freeSlots[|freeSlots| - 1];
        if generations[free] == U32 - 1 {
          return None;
        }
        freeSlots := freeSlots[..|freeSlots| - 1];
        generations := generations[free := generations[free] + 1];
        key := Key(free % U32, generations[free]);
        values := values[free := Some(value(key))];
      } else {
        var index := |values|;
        var generation := 0;
        if |generations| <= |values| {
          generations := generations + [0];
        } else {
          if generations[index] == U32 - 1 {
            return None;
          }
          generations := generations[index := generations[index] + 1];
          generation := generations[index];
        }
        key := Key(index % U32, generation);
        values := values + [Some(value(key))];
      }
      r := Some(key);
      assert key == was.NextKey();
      assert Model() == was.Put(value(key));
      PutValid(was, value(key));
      if was.NextIndex() < U32 {
        PutMap(was, value(key));
      }
    }

    method Remove(key: Key) returns (r: Option<T>)
      requires Valid() && key.index < |generations|
      modifies this
      ensures Valid()
      ensures r == if key in old(Model().AsMap()) then Some(old(Model().AsMap())[key]) else None
      ensures Model() == old(Model()).Remove(key)
      ensures Model().AsMap() == old(Model().AsMap()) - {key}
    {
      GetRefines(Model(), key);
      RemoveRefines(Model(), key);
      if generations[key.index] != key.generation || key.index >= |values| {
        return None;
      }
      r := values[key.index];
      values := values[key.index := None];
      if r.Some? {
        freeSlots := freeSlots + [key.index];
      }
      assert values == old(values)[key.index := None];
      if r.None? {
        assert values == old(values);
      }
    }

    /// One pass over the slots. The callback is pure; what it emits is returned. A value on which it
    /// panics ends the pass.
    method RetainIf(f: T -> Verdict<T>, panics: T -> bool) returns (log: Option<seq<Bytes>>)
      modifies this
      ensures log.None? <==> old(Model()).AnyOf(panics)
      ensures log.Some? && old(Valid()) ==> Valid()
      ensures log.Some? ==> Model() == old(Model()).RetainIf(f) && log.value == Logged(old(values), f)
    {
      hide RetainedTo, Kept, Dropped, Logged, CalmTo, Slots.AnyOf, Slots.RetainIf, Slots.Valid;
      ghost var was := Model();
      var done := [];
      RetainDone(was, f, Model(), done);
      CalmDone(was, panics);
      var i := 0;
      while i < |values|
        invariant 0 <= i <= |values| == |was.values|
        invariant RetainedTo(was, f, i, Model(), done)
        invariant CalmTo(was.values, panics, i)
      {
        ghost var t, emitted := Model(), done;
        RetainStep(was, f, i, t, done);
        assert values[i] == was.values[i];
        CalmStep(was, panics, i);
        if values[i].Some? {
          if panics(values[i].value) {
            return None;
          }
          var verdict := f(values[i].value);
          values := values[i := verdict.kept];
          done := done + verdict.log;
          if verdict.kept.None? {
            freeSlots := freeSlots + [i];
          }
        }
        assert Model() == RetainSlot(t, f, i);
        assert done == emitted + if t.values[i].Some? then f(t.values[i].value).log else [];
        i := i + 1;
      }
      log := Some(done);
      RetainDone(was, f, Model(), done);
      if old(Valid()) {
        RetainRefines(was, f);
      }
    }

    method Clear()
      requires Valid()
      modifies this
      ensures Valid()
      ensures Model() == old(Model()).Clear() && Model().AsMap() == map[]
    {
      values, freeSlots := [], [];
    }
  }
}
