/** Reassembly of segmented messages. */
module Joining {
  import opened Base
  import opened Framing

  datatype Segments = Segments(parts: seq<Option<Bytes>>, nonFilled: nat)

  type Joiner = map<nat, Segments>

  datatype JoinError = NoRoom | SegmentRepeated | MetadataMalformed

  /// `OutOfRange`: the segment number lies outside the list, which is a panic.
  datatype JoinResult = Pending | Complete(parts: seq<Bytes>) | Refused(error: JoinError) | OutOfRange

  function Holes(parts: seq<Option<Bytes>>): nat {
    if parts == [] then 0 else (if parts[0].None? then 1 else 0) + Holes(parts[1..])
  }

  /// Every entry counts its holes correctly and has at least one.
  ghost predicate JoinerOk(m: Joiner) {
    forall k :: k in m ==> m[k].nonFilled == Holes(m[k].parts) && m[k].nonFilled > 0
  }

  function Blank(count: nat): (s: Segments)
    ensures |s.parts| == count
  {
    Segments(seq(count, _ => None), count)
  }

  function Values(parts: seq<Option<Bytes>>): (r: seq<Bytes>)
    requires forall i :: 0 <= i < |parts| ==> parts[i].Some?
    ensures |r| == |parts| && forall i :: 0 <= i < |r| ==> Some(r[i]) == parts[i]
  {
    seq(|parts|, i requires 0 <= i < |parts| => parts[i].value)
  }

  datatype JoinStep = Step(joiner: Joiner, result: JoinResult)

  /// Files a segment under an entry that exists.
  function File(m: Joiner, meta: SegmentMeta, payload: Bytes): JoinStep
    requires meta.key in m
  {
    var entry := m[meta.key];
    if meta.count != |entry.parts| then Step(m, Refused(MetadataMalformed))
    else if meta.segment >= |entry.parts| then Step(m, OutOfRange)
    else if entry.parts[meta.segment].Some? then Step(m, Refused(SegmentRepeated))
    else
      var parts := entry.parts[meta.segment := Some(payload)];
      if entry.nonFilled != 1 then
        Step(m[meta.key := Segments(parts, if entry.nonFilled == 0 then 0 else entry.nonFilled - 1)], Pending)
      else if forall i :: 0 <= i < |parts| ==> parts[i].Some? then
        Step(m - {meta.key}, Complete(Values(parts)))
      else
        Step(m - {meta.key}, OutOfRange)
  }

  /// Files a segment, opening an entry if there is none. Nothing is evicted.
  function Join(m: Joiner, meta: SegmentMeta, payload: Bytes): JoinStep {
    File(if meta.key in m then m else m[meta.key := Blank(meta.count)], meta, payload)
  }

  lemma {:induction false} HolesBlank(n: nat)
    ensures Holes(seq(n, _ => None)) == n
  {
    if n > 0 {
      var s: seq<Option<Bytes>> := seq(n, _ => None);
      assert s[1..] == seq(n - 1, _ => None);
      HolesBlank(n - 1);
    }
  }

  lemma {:induction false} HolesFill(parts: seq<Option<Bytes>>, i: nat, payload: Bytes)
    requires i < |parts| && parts[i].None?
    ensures Holes(parts[i := Some(payload)]) == Holes(parts) - 1
  {
    if i == 0 {
      assert parts[i := Some(payload)][1..] == parts[1..];
    } else {
      assert parts[i := Some(payload)][1..] == parts[1..][i - 1 := Some(payload)];
      HolesFill(parts[1..], i - 1, payload);
    }
  }

  lemma {:induction false} HolesZero(parts: seq<Option<Bytes>>)
    ensures Holes(parts) == 0 <==> forall i :: 0 <= i < |parts| ==> parts[i].Some?
  {
    if parts != [] {
      HolesZero(parts[1..]);
      assert forall i :: 0 <= i < |parts[1..]| ==> parts[1..][i] == parts[i + 1];
      if Holes(parts) == 0 {
        forall i | 0 <= i < |parts|
          ensures parts[i].Some?
        {
          assert i > 0 ==> parts[1..][i - 1] == parts[i];
        }
      }
    }
  }

  /// The count of holes stays exact, so a list is handed out at its last hole and not before.
  lemma JoinCounts(m: Joiner, meta: SegmentMeta, payload: Bytes)
    requires JoinerOk(m) && 0 < meta.count
    ensures JoinerOk(Join(m, meta, payload).joiner)
    ensures meta.segment < meta.count ==> !Join(m, meta, payload).result.OutOfRange?
    ensures Join(m, meta, payload).result.Complete? ==> meta.key !in Join(m, meta, payload).joiner
  {
    HolesBlank(meta.count);
    var base := if meta.key in m then m else m[meta.key := Blank(meta.count)];
    var entry := base[meta.key];
    assert Holes(entry.parts) == entry.nonFilled > 0;
    if meta.count == |entry.parts| && meta.segment < meta.count && entry.parts[meta.segment].None? {
      HolesFill(entry.parts, meta.segment, payload);
      HolesZero(entry.parts[meta.segment := Some(payload)]);
    }
  }

  // ---- Any arrival order ----

  datatype Arrival = Arrival(meta: SegmentMeta, payload: Bytes)

  function Feed(m: Joiner, arrivals: seq<Arrival>): seq<JoinResult>
    decreases |arrivals|
  {
    if arrivals == [] then []
    else
      var r := Join(m, arrivals[0].meta, arrivals[0].payload);
      [r.result] + Feed(r.joiner, arrivals[1..])
  }

  /// The arrival is a segment of the message `parts` with this key.
  predicate SegmentOf(a: Arrival, key: nat, parts: seq<Bytes>) {
    a.meta.key == key ==> a.meta.count == |parts| && a.meta.segment < |parts| && a.payload == parts[a.meta.segment]
  }

  /// The segments of `key` among the arrivals, in order of arrival.
  function Numbers(arrivals: seq<Arrival>, key: nat): seq<nat> {
    if arrivals == [] then []
    else (if arrivals[0].meta.key == key then [arrivals[0].meta.segment] else []) + Numbers(arrivals[1..], key)
  }

  /// The entry for `key` holds exactly the segments in `seen`.
  ghost predicate Partly(m: Joiner, key: nat, parts: seq<Bytes>, seen: set<nat>) {
    if seen == {} then key !in m
    else
      && key in m && |m[key].parts| == |parts|
      && (forall i :: 0 <= i < |parts| ==> m[key].parts[i] == if i in seen then Some(parts[i]) else None)
  }

  /// All the segments of a message of `n` are among the arrivals.
  predicate Covers(arrivals: seq<Arrival>, key: nat, n: nat) {
    forall k :: 0 <= k < n ==> k in Numbers(arrivals, key)
  }

  /// A segment whose place is filled, or whose count differs, is refused and changes nothing. Any other
  /// is filed: at the last hole the list is handed out and its entry goes, before that it stays.
  lemma JoinExactly(m: Joiner, meta: SegmentMeta, payload: Bytes)
    requires JoinerOk(m) && meta.segment < meta.count
    ensures var r, parts := Join(m, meta, payload), (if meta.key in m then m[meta.key] else Blank(meta.count)).parts;
            if meta.count != |parts| then r == Step(m, Refused(MetadataMalformed))
            else if parts[meta.segment].Some? then r == Step(m, Refused(SegmentRepeated))
            else
              var filled := parts[meta.segment := Some(payload)];
              if forall i :: 0 <= i < |filled| ==> filled[i].Some? then
                r == Step(m - {meta.key}, Complete(Values(filled)))
              else
                && r.result == Pending && r.joiner.Keys == m.Keys + {meta.key} && r.joiner[meta.key].parts == filled
                && (forall k :: k in m && k != meta.key ==> r.joiner[k] == m[k])
  {
    HolesBlank(meta.count);
    var entry := if meta.key in m then m[meta.key] else Blank(meta.count);
    if meta.count == |entry.parts| && entry.parts[meta.segment].None? {
      HolesFill(entry.parts, meta.segment, payload);
      HolesZero(entry.parts[meta.segment := Some(payload)]);
      assert m[meta.key := entry] - {meta.key} == m - {meta.key};
    }
  }

  lemma PartlyStep(m: Joiner, a: Arrival, parts: seq<Bytes>, seen: set<nat>)
    requires JoinerOk(m) && SegmentOf(a, a.meta.key, parts) && Partly(m, a.meta.key, parts, seen)
    ensures var r, seen' := Join(m, a.meta, a.payload), seen + {a.meta.segment};
            if a.meta.segment in seen then r == Step(m, Refused(SegmentRepeated))
            else if forall i :: 0 <= i < |parts| ==> i in seen' then
              r.result == Complete(parts) && a.meta.key !in r.joiner
            else
              r.result == Pending && Partly(r.joiner, a.meta.key, parts, seen')
  {
    JoinExactly(m, a.meta, a.payload);
    var entry := if a.meta.key in m then m[a.meta.key] else Blank(a.meta.count);
    if a.meta.segment !in seen {
      var filled := entry.parts[a.meta.segment := Some(a.payload)];
      assert forall i :: 0 <= i < |parts| ==>
          filled[i] == if i in seen + {a.meta.segment} then Some(parts[i]) else None;
      if forall i :: 0 <= i < |parts| ==> i in seen + {a.meta.segment} {
        assert Values(filled) == parts;
      }
    }
  }

  lemma OtherKey(m: Joiner, a: Arrival, key: nat, parts: seq<Bytes>, seen: set<nat>)
    requires a.meta.key != key && Partly(m, key, parts, seen)
    ensures Partly(Join(m, a.meta, a.payload).joiner, key, parts, seen)
  {
  }

  /// The joiner after the first arrivals.
  function Fed(m: Joiner, arrivals: seq<Arrival>): Joiner {
    if arrivals == [] then m
    else
      var n := |arrivals| - 1;
      Join(Fed(m, arrivals[..n]), arrivals[n].meta, arrivals[n].payload).joiner
  }

  lemma {:induction false} NumbersSnoc(arrivals: seq<Arrival>, a: Arrival, key: nat)
    ensures Numbers(arrivals + [a], key) == Numbers(arrivals, key) + if a.meta.key == key then [a.meta.segment] else []
  {
    if arrivals == [] {
      assert arrivals + [a] == [a];
      assert Numbers([a][1..], key) == [];
    } else {
      assert (arrivals + [a])[1..] == arrivals[1..] + [a];
      NumbersSnoc(arrivals[1..], a, key);
    }
  }

  ghost function SetOf(numbers: seq<nat>): set<nat> {
    set i | i in numbers
  }

  /// While some segment is missing the joiner holds exactly those that came.
  lemma {:induction false} FedHolds(m: Joiner, arrivals: seq<Arrival>, key: nat, parts: seq<Bytes>)
    requires JoinerOk(m) && key !in m && parts != []
    requires forall a :: a in arrivals ==> a.meta.segment < a.meta.count && SegmentOf(a, key, parts)
    ensures JoinerOk(Fed(m, arrivals))
    ensures !Covers(arrivals, key, |parts|) ==> Partly(Fed(m, arrivals), key, parts, SetOf(Numbers(arrivals, key)))
    decreases |arrivals|
  {
    if arrivals == [] {
      assert SetOf(Numbers(arrivals, key)) == {};
    } else {
      var n := |arrivals| - 1;
      var front, a := arrivals[..n], arrivals[n];
      assert arrivals == front + [a];
      FedHolds(m, front, key, parts);
      JoinCounts(Fed(m, front), a.meta, a.payload);
      NumbersSnoc(front, a, key);
      if !Covers(arrivals, key, |parts|) {
        var k :| 0 <= k < |parts| && k !in Numbers(arrivals, key);
        assert k !in Numbers(front, key);
        var seen := SetOf(Numbers(front, key));
        if a.meta.key == key {
          PartlyStep(Fed(m, front), a, parts, seen);
          assert SetOf(Numbers(arrivals, key)) == seen + {a.meta.segment};
          if a.meta.segment in seen {
            assert seen + {a.meta.segment} == seen;
          } else {
            assert k !in seen + {a.meta.segment};
          }
        } else {
          assert SetOf(Numbers(arrivals, key)) == seen;
          OtherKey(Fed(m, front), a, key, parts, seen);
        }
      }
    }
  }

  lemma {:induction false} FeedAt(m: Joiner, arrivals: seq<Arrival>, i: nat)
    requires i < |arrivals|
    ensures |Feed(m, arrivals)| == |arrivals|
    ensures Feed(m, arrivals)[i] == Join(Fed(m, arrivals[..i]), arrivals[i].meta, arrivals[i].payload).result
    decreases |arrivals|
  {
    var r, rest := Join(m, arrivals[0].meta, arrivals[0].payload), arrivals[1..];
    if i == 0 {
      FeedLength(m, arrivals);
    } else {
      FeedAt(r.joiner, rest, i - 1);
      FedFront(m, arrivals[..i]);
      assert arrivals[..i][1..] == rest[..i - 1];
    }
  }

  lemma {:induction false} FeedLength(m: Joiner, arrivals: seq<Arrival>)
    ensures |Feed(m, arrivals)| == |arrivals|
    decreases |arrivals|
  {
    if arrivals != [] {
      FeedLength(Join(m, arrivals[0].meta, arrivals[0].payload).joiner, arrivals[1..]);
    }
  }

  lemma {:induction false} FedFront(m: Joiner, arrivals: seq<Arrival>)
    requires arrivals != []
    ensures Fed(m, arrivals) == Fed(Join(m, arrivals[0].meta, arrivals[0].payload).joiner, arrivals[1..])
    decreases |arrivals|
  {
    var n := |arrivals| - 1;
    if n == 0 {
      assert arrivals[..0] == [] && arrivals[1..] == [];
    } else {
      FedFront(m, arrivals[..n]);
      assert arrivals[..n][1..] == arrivals[1..][..n - 1];
    }
  }

  /// The segments of a payload, arriving in any order, any number of times, among segments of other
  /// messages: each that came before is refused, each new one is kept, and at the arrival of the last
  /// missing one the list is handed back. Put together it is the payload.
  lemma Reassembly(m: Joiner, arrivals: seq<Arrival>, key: nat, payload: Bytes, i: nat)
    requires JoinerOk(m) && key !in m && payload != [] && i < |arrivals| && arrivals[i].meta.key == key
    requires forall a :: a in arrivals ==> a.meta.segment < a.meta.count && SegmentOf(a, key, Chunks(payload))
    requires !Covers(arrivals[..i], key, |Chunks(payload)|)
    ensures |Feed(m, arrivals)| == |arrivals|
    ensures Feed(m, arrivals)[i]
         == if arrivals[i].meta.segment in Numbers(arrivals[..i], key) then Refused(SegmentRepeated)
            else if Covers(arrivals[..i + 1], key, |Chunks(payload)|) then Complete(Chunks(payload))
            else Pending
    ensures Flat(Chunks(payload)) == payload
  {
    hide Numbers, Fed, Feed, Join, Chunks, Partly, JoinerOk, SetOf;
    ChunksFlat(payload);
    FeedAt(m, arrivals, i);
    FedHolds(m, arrivals[..i], key, Chunks(payload));
    assert arrivals[i] in arrivals;
    PartlyStep(Fed(m, arrivals[..i]), arrivals[i], Chunks(payload), SetOf(Numbers(arrivals[..i], key)));
    OneMoreNumber(arrivals, i, key, |Chunks(payload)|);
  }

  lemma OneMoreNumber(arrivals: seq<Arrival>, i: nat, key: nat, n: nat)
    requires i < |arrivals| && arrivals[i].meta.key == key
    ensures var seen := SetOf(Numbers(arrivals[..i], key)) + {arrivals[i].meta.segment};
            Covers(arrivals[..i + 1], key, n) <==> forall k :: 0 <= k < n ==> k in seen
    ensures arrivals[i].meta.segment in SetOf(Numbers(arrivals[..i], key))
       <==> arrivals[i].meta.segment in Numbers(arrivals[..i], key)
  {
    assert arrivals[..i + 1] == arrivals[..i] + [arrivals[i]];
    NumbersSnoc(arrivals[..i], arrivals[i], key);
    hide Numbers;
    var seen := SetOf(Numbers(arrivals[..i], key)) + {arrivals[i].meta.segment};
    var numbers := Numbers(arrivals[..i + 1], key);
    assert forall k :: k in numbers <==> k in seen;
    assert Covers(arrivals[..i + 1], key, n) <==> forall k :: 0 <= k < n ==> k in numbers;
    if Covers(arrivals[..i + 1], key, n) {
      forall k: nat | k < n
        ensures k in seen
      {
        assert k in numbers;
      }
    } else {
      var k: nat :| k < n && k !in numbers;
      assert k !in seen;
    }
  }

  // ---- The joiner in place ----

  class PacketSegmentJoiner {
    var entries: Joiner
    const capacity: nat

    ghost predicate Valid()
      reads this
    {
      JoinerOk(entries)
    }

    constructor (capacity: nat)
      ensures Valid() && entries == map[] && this.capacity == capacity
    {
      entries := map[];
      this.capacity := capacity;
    }

    /// Removes some entry, if there is one.
    method PopFirst() returns (removed: Option<()>)
      requires Valid()
      modifies this
      ensures Valid()
      ensures removed.None? <==> old(entries) == map[]
      ensures removed.None? ==> entries == old(entries)
      ensures removed.Some? ==> exists k :: k in old(entries) && entries == old(entries) - {k}
    {
      if entries.Keys == {} {
        assert entries == map[];
        return None;
      }
      var key :| key in entries.Keys;
      entries := entries - {key};
      removed := Some(());
    }

    /// Files a segment. A new message in a full joiner is refused or evicts some other one; an
    /// empty joiner, hence one built with capacity 0, evicts nothing.
    method Add(meta: SegmentMeta, payload: Bytes, popFirstOnCapacity: bool) returns (r: JoinResult)
      requires Valid() && 0 < meta.count
      modifies this
      ensures Valid() && (meta.segment < meta.count ==> !r.OutOfRange?)
      ensures var full := meta.key !in old(entries) && |old(entries)| == capacity;
              if full && !popFirstOnCapacity then
                r == Refused(NoRoom) && entries == old(entries)
              else if full && old(entries) != map[] then
                exists k :: k in old(entries) && Step(entries, r) == Join(old(entries) - {k}, meta, payload)
              else
                Step(entries, r) == Join(old(entries), meta, payload)
    {
      ghost var base := entries;
      if meta.key !in entries {
        if |entries| == capacity {
          if !popFirstOnCapacity {
            return Refused(NoRoom);
          }
          var _ := PopFirst();
          base := entries;
        }
        entries := entries[meta.key := Blank(meta.count)];
      }
      HolesBlank(meta.count);
      JoinCounts(base, meta, payload);
      r := FileInPlace(meta, payload);
    }

    method FileInPlace(meta: SegmentMeta, payload: Bytes) returns (r: JoinResult)
      requires Valid() && meta.key in entries
      modifies this
      ensures Step(entries, r) == File(old(entries), meta, payload)
    {
      var segments := entries[meta.key];
      if meta.count != |segments.parts| {
        return Refused(MetadataMalformed);
      }
      if meta.segment >= |segments.parts| {
        return OutOfRange;
      }
      if segments.parts[meta.segment].Some? {
        return Refused(SegmentRepeated);
      }
      HolesFill(segments.parts, meta.segment, payload);
      HolesZero(segments.parts[meta.segment := Some(payload)]);
      ghost var was := entries;
      segments := Segments(segments.parts[meta.segment := Some(payload)], segments.nonFilled - 1);
      entries := entries[meta.key := segments];
      if segments.nonFilled == 0 {
        entries := entries - {meta.key};
        assert entries == was - {meta.key};
        r := Complete(Values(segments.parts));
      } else {
        r := Pending;
      }
    }
  }
}
