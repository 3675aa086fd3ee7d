/** Channels, the providers that configure them, and the tables that number them per connection. */
module Channels {
  import opened Base
  import opened Framing

  datatype Reliability = Reliability(interval: nat, attempts: nat, additionalCapacity: nat)

  datatype Channel = Channel(reliability: Option<Reliability>, capacity: Option<nat>, frequency: nat) {
    predicate IsReliable() {
      reliability.Some?
    }

    predicate IsOrdered() {
      capacity.Some?
    }
  }

  const ACK_CHANNEL := Channel(Some(Reliability(750, U32 - 1, 300)), None, 0x10_0000)
  const MANAGEMENT_CHANNEL := Channel(Some(Reliability(100, U32 - 1, 300)), Some(1000), 0)

  /// "__ack" and "__channel".
  const ACK_NAME: Bytes := [95, 95, 97, 99, 107]
  const MANAGEMENT_NAME: Bytes := [95, 95, 99, 104, 97, 110, 110, 101, 108]

  const MAX_NAME := 500

  datatype Provider = Provider(channels: seq<Channel>, names: map<Bytes, nat>) {
    function ById(id: nat): Option<Channel> {
      if id < |channels| then Some(channels[id]) else None
    }

    function ByName(name: Bytes): Option<nat> {
      if name in names then Some(names[name]) else None
    }

    function Add(name: Bytes, channel: Channel): Provider {
      Provider(channels + [channel], names[name := |channels|])
    }

    /// What the protocol relies on: the two system channels are there under their names, names
    /// are not empty and lead to different channels, and local ids stay below the reserved ones.
    ghost predicate WellFormed() {
      && (forall n :: n in names ==> names[n] < |channels| && names[n] < MANAGEMENT_ID_REGISTRATION && n != [])
      && (forall n, m :: n in names && m in names && names[n] == names[m] ==> n == m)
      && ACK_NAME in names && channels[names[ACK_NAME]] == ACK_CHANNEL
      && MANAGEMENT_NAME in names && channels[names[MANAGEMENT_NAME]] == MANAGEMENT_CHANNEL
      && |names| < MANAGEMENT_ID_REGISTRATION
    }
  }

  function DefaultProvider(): Provider {
    Provider([], map[]).Add(ACK_NAME, ACK_CHANNEL).Add(MANAGEMENT_NAME, MANAGEMENT_CHANNEL)
  }

  /// Registering channels under new, non-empty names keeps a provider well formed.
  lemma AddKeepsWellFormed(p: Provider, name: Bytes, channel: Channel)
    requires p.WellFormed() && name != [] && name !in p.names
    requires |p.names| + 1 < MANAGEMENT_ID_REGISTRATION && |p.channels| < MANAGEMENT_ID_REGISTRATION
    ensures p.Add(name, channel).WellFormed()
  {
    var q := p.Add(name, channel);
    assert q.names.Keys == p.names.Keys + {name};
    assert |q.names| == |q.names.Keys| && |p.names| == |p.names.Keys|;
  }

  lemma DefaultWellFormed()
    ensures DefaultProvider().WellFormed()
  {
    var q := DefaultProvider();
    assert ACK_NAME[2] != MANAGEMENT_NAME[2];
    assert q.names == map[ACK_NAME := 0, MANAGEMENT_NAME := 1];
    assert q.names.Keys == {ACK_NAME, MANAGEMENT_NAME};
    assert |q.names| == |q.names.Keys|;
  }

  /// Two providers agree on the framing of every channel that both know by name.
  ghost predicate Matching(p: Provider, q: Provider) {
    forall n :: n in p.names && n in q.names && p.names[n] < |p.channels| && q.names[n] < |q.channels| ==>
      && p.channels[p.names[n]].IsOrdered() == q.channels[q.names[n]].IsOrdered()
      && p.channels[p.names[n]].IsReliable() == q.channels[q.names[n]].IsReliable()
  }

  datatype Entry = Entry(name: Bytes, global: nat)

  /// The channels of a provider, each once, in some order by descending frequency.
  ghost predicate IsListing(p: Provider, listing: seq<Entry>) {
    && |listing| == |p.names|
    && (forall i :: 0 <= i < |listing| ==> listing[i].name in p.names && p.names[listing[i].name] == listing[i].global)
    && (forall i, j :: 0 <= i < j < |listing| ==> listing[i].name != listing[j].name)
    && (forall n :: n in p.names ==> exists i :: 0 <= i < |listing| && listing[i].name == n)
    && (forall i, j ::
          0 <= i < j < |listing| && listing[i].global < |p.channels| && listing[j].global < |p.channels| ==>
            p.channels[listing[i].global].frequency >= p.channels[listing[j].global].frequency)
  }

  // ---- Sorting by frequency ----

  /// The channels of a provider, each once, in the order in which its hash map is walked.
  ghost predicate Enumerates(p: Provider, all: seq<Entry>) {
    && |all| == |p.names|
    && (forall e :: e in all ==> e.name in p.names && p.names[e.name] == e.global)
    && DistinctNames(all)
    && (forall n :: n in p.names ==> Entry(n, p.names[n]) in all)
  }

  ghost predicate DistinctNames(entries: seq<Entry>) {
    forall i, j :: 0 <= i < j < |entries| ==> entries[i].name != entries[j].name
  }

  function Frequency(p: Provider, e: Entry): nat {
    match p.ById(e.global)
    case Some(ch) => ch.frequency
    case None => 0
  }

  /// Places an entry behind those that are at least as frequent.
  function InsertSorted(p: Provider, sorted: seq<Entry>, e: Entry): seq<Entry> {
    if sorted == [] then [e]
    else
      var last := |sorted| - 1;
      if Frequency(p, sorted[last]) >= Frequency(p, e) then sorted + [e]
      else InsertSorted(p, sorted[..last], e) + [sorted[last]]
  }

  /// The stable sort by descending frequency.
  function Sorted(p: Provider, all: seq<Entry>): seq<Entry> {
    if all == [] then [] else InsertSorted(p, Sorted(p, all[..|all| - 1]), all[|all| - 1])
  }

  ghost predicate Descending(p: Provider, entries: seq<Entry>) {
    forall i, j :: 0 <= i < j < |entries| ==> Frequency(p, entries[i]) >= Frequency(p, entries[j])
  }

  ghost predicate SortedBy(p: Provider, entries: seq<Entry>) {
    DistinctNames(entries) && Descending(p, entries)
  }

  lemma SortedAppend(p: Provider, entries: seq<Entry>, last: Entry)
    requires SortedBy(p, entries)
    requires forall x :: x in entries ==> x.name != last.name && Frequency(p, x) >= Frequency(p, last)
    ensures SortedBy(p, entries + [last])
  {
    hide Frequency;
    forall i | 0 <= i < |entries|
      ensures entries[i].name != last.name && Frequency(p, entries[i]) >= Frequency(p, last)
    {
      assert entries[i] in entries;
    }
  }

  lemma SortedFront(p: Provider, sorted: seq<Entry>)
    requires SortedBy(p, sorted) && sorted != []
    ensures SortedBy(p, sorted[..|sorted| - 1])
    ensures forall x :: x in sorted[..|sorted| - 1] ==>
              x.name != sorted[|sorted| - 1].name && Frequency(p, x) >= Frequency(p, sorted[|sorted| - 1])
  {
    hide Frequency;
  }

  lemma {:induction false} InsertSortedKeeps(p: Provider, sorted: seq<Entry>, e: Entry)
    requires SortedBy(p, sorted) && forall x :: x in sorted ==> x.name != e.name
    ensures var r := InsertSorted(p, sorted, e);
            |r| == |sorted| + 1 && SortedBy(p, r) && forall x :: x in r <==> x in sorted || x == e
  {
    hide Frequency, DistinctNames, Descending;
    if sorted == [] {
      SortedAppend(p, [], e);
      assert [] + [e] == [e];
    } else {
      var last := |sorted| - 1;
      var front := sorted[..last];
      assert sorted == front + [sorted[last]];
      SortedFront(p, sorted);
      if Frequency(p, sorted[last]) < Frequency(p, e) {
        InsertSortedKeeps(p, front, e);
        SortedAppend(p, InsertSorted(p, front, e), sorted[last]);
      } else {
        SortedAppend(p, sorted, e);
      }
    }
  }

  lemma {:induction false} SortedKeeps(p: Provider, all: seq<Entry>)
    requires DistinctNames(all)
    ensures var r := Sorted(p, all);
            && |r| == |all| && DistinctNames(r) && Descending(p, r) && (forall x :: x in r <==> x in all)
  {
    if all != [] {
      var n := |all| - 1;
      assert all == all[..n] + [all[n]];
      SortedKeeps(p, all[..n]);
      InsertSortedKeeps(p, Sorted(p, all[..n]), all[n]);
    }
  }

  lemma DescendingFrequency(p: Provider, r: seq<Entry>)
    requires Descending(p, r)
    ensures forall i, j :: 0 <= i < j < |r| && r[i].global < |p.channels| && r[j].global < |p.channels| ==>
              p.channels[r[i].global].frequency >= p.channels[r[j].global].frequency
  {
    forall i, j | 0 <= i < j < |r| && r[i].global < |p.channels| && r[j].global < |p.channels|
      ensures p.channels[r[i].global].frequency >= p.channels[r[j].global].frequency
    {
      assert Frequency(p, r[i]) >= Frequency(p, r[j]);
    }
  }

  lemma EachListed(p: Provider, all: seq<Entry>, r: seq<Entry>, n: Bytes)
    requires Enumerates(p, all) && n in p.names && forall x :: x in r <==> x in all
    ensures exists i :: 0 <= i < |r| && r[i].name == n
  {
    assert Entry(n, p.names[n]) in all;
    var i :| 0 <= i < |r| && r[i] == Entry(n, p.names[n]);
  }

  /// Sorting an enumeration of the provider's channels gives a listing by descending frequency.
  lemma SortedListing(p: Provider, all: seq<Entry>)
    requires Enumerates(p, all)
    ensures IsListing(p, Sorted(p, all))
  {
    hide Sorted, Descending;
    SortedKeeps(p, all);
    var r := Sorted(p, all);
    DescendingFrequency(p, r);
    forall i | 0 <= i < |r|
      ensures r[i].name in p.names && p.names[r[i].name] == r[i].global
    {
      assert r[i] in all;
    }
    forall n | n in p.names
      ensures exists i :: 0 <= i < |r| && r[i].name == n
    {
      EachListed(p, all, r, n);
    }
  }

  // ---- The table of one direction ----

  datatype Ids = Ids(localToGlobal: seq<nat>, globalToLocal: seq<nat>, ack: nat, management: nat) {

    function LocalId(stage: Stage, global: nat): Option<nat> {
      match stage
      case Reg => if global == ACK_ID_REGISTRATION || global == MANAGEMENT_ID_REGISTRATION then Some(global) else None
      case Tra =>
        if global < |globalToLocal| && globalToLocal[global] != NULL_ID then Some(globalToLocal[global]) else None
    }

    function GlobalId(stage: Stage, local: nat): Option<nat> {
      match stage
      case Reg => if local == ACK_ID_REGISTRATION || local == MANAGEMENT_ID_REGISTRATION then Some(local) else None
      case Tra => if local < |localToGlobal| then Some(localToGlobal[local]) else None
    }

    /// `None` is the refusal of a local id beyond the end.
    function Insert(local: nat, global: nat, name: Bytes): Option<Ids> {
      if local > |localToGlobal| then None
      else
        var grown := Padded(globalToLocal, global + 1);
        Some(Ids(
          localToGlobal[..local] + [global] + localToGlobal[local..],
          grown[global := local],
          if name == ACK_NAME then local else Moved(ack, local),
          if name == MANAGEMENT_NAME then local else Moved(management, local)))
    }

    /// Each vector undoes the other.
    ghost predicate Inverse() {
      && (forall i :: 0 <= i < |localToGlobal| ==>
            localToGlobal[i] < |globalToLocal| && globalToLocal[localToGlobal[i]] == i)
      && (forall g :: 0 <= g < |globalToLocal| && globalToLocal[g] != NULL_ID ==>
            globalToLocal[g] < |localToGlobal| && localToGlobal[globalToLocal[g]] == g)
    }
  }

  function EmptyIds(): Ids {
    Ids([], [], NULL_ID, NULL_ID)
  }

  function Moved(id: nat, local: nat): nat {
    if id != NULL_ID && id > local then id + 1 else id
  }

  function Padded(s: seq<nat>, n: nat): (r: seq<nat>)
    ensures |r| == if |s| < n then n else |s|
    ensures forall i :: 0 <= i < |r| ==> r[i] == if i < |s| then s[i] else NULL_ID
  {
    if |s| < n then s + seq(n - |s|, _ => NULL_ID) else s
  }

  /// The comment on `insert` promises a table that stays consistent when an id is occupied or a
  /// channel repeats. It does if and only if the id is the next free one and the channel is new.
  lemma InsertKeepsInverseExactly(ids: Ids, local: nat, global: nat, name: Bytes)
    requires ids.Inverse() && local <= |ids.localToGlobal| < NULL_ID
    ensures ids.Insert(local, global, name).value.Inverse()
       <==> local == |ids.localToGlobal| && ids.LocalId(Tra, global).None?
  {
    var n, t := |ids.localToGlobal|, ids.Insert(local, global, name).value;
    if local < n {
      var last := ids.localToGlobal[n - 1];
      assert ids.globalToLocal[last] == n - 1;
      assert t.localToGlobal[n] == last;
      assert t.globalToLocal[last] == if last == global then local else n - 1;
    } else if ids.LocalId(Tra, global).Some? {
      var i := ids.globalToLocal[global];
      assert t.localToGlobal[i] == global && t.globalToLocal[global] == n;
    } else {
      forall i | 0 <= i < |t.localToGlobal|
        ensures t.localToGlobal[i] < |t.globalToLocal| && t.globalToLocal[t.localToGlobal[i]] == i
      {
        if i < n {
          assert t.localToGlobal[i] == ids.localToGlobal[i];
        }
      }
      forall g | 0 <= g < |t.globalToLocal| && t.globalToLocal[g] != NULL_ID
        ensures t.globalToLocal[g] < |t.localToGlobal| && t.localToGlobal[t.globalToLocal[g]] == g
      {
      }
    }
  }

  /// The table after inserting channels at the end one by one.
  function Appended(entries: seq<Entry>): (t: Ids)
    ensures |t.localToGlobal| == |entries|
    ensures forall i :: 0 <= i < |entries| ==> t.localToGlobal[i] == entries[i].global
  {
    if entries == [] then EmptyIds()
    else
      var n := |entries| - 1;
      var before := Appended(entries[..n]);
      before.Insert(n, entries[n].global, entries[n].name).value
  }

  ghost predicate DistinctEntries(entries: seq<Entry>) {
    && (forall i, j :: 0 <= i < j < |entries| ==> entries[i].name != entries[j].name)
    && (forall i, j :: 0 <= i < j < |entries| ==> entries[i].global != entries[j].global)
  }

  /// Where a name stands in a list, or the null id.
  ghost predicate StandsAt(entries: seq<Entry>, name: Bytes, id: nat) {
    if id == NULL_ID then forall i :: 0 <= i < |entries| ==> entries[i].name != name
    else id < |entries| && entries[id].name == name
  }

  lemma {:induction false} AppendedInverse(entries: seq<Entry>)
    requires DistinctEntries(entries) && |entries| < NULL_ID
    ensures Appended(entries).Inverse()
  {
    if entries != [] {
      var n := |entries| - 1;
      AppendedInverse(entries[..n]);
      AppendedNew(entries);
      InsertKeepsInverseExactly(Appended(entries[..n]), n, entries[n].global, entries[n].name);
    }
  }

  lemma {:induction false} AppendedSystem(entries: seq<Entry>)
    requires DistinctEntries(entries) && |entries| < NULL_ID
    ensures StandsAt(entries, ACK_NAME, Appended(entries).ack)
    ensures StandsAt(entries, MANAGEMENT_NAME, Appended(entries).management)
  {
    if entries != [] {
      var n := |entries| - 1;
      var before, after := Appended(entries[..n]), Appended(entries);
      AppendedSystem(entries[..n]);
      AppendedId(entries, ACK_NAME, before.ack, after.ack);
      AppendedId(entries, MANAGEMENT_NAME, before.management, after.management);
    }
  }

  /// Appending distinct channels gives mutually inverse tables with the system ids in place.
  lemma AppendedShape(entries: seq<Entry>)
    requires DistinctEntries(entries) && |entries| < NULL_ID
    ensures Appended(entries).Inverse()
    ensures StandsAt(entries, ACK_NAME, Appended(entries).ack)
    ensures StandsAt(entries, MANAGEMENT_NAME, Appended(entries).management)
  {
    AppendedInverse(entries);
    AppendedSystem(entries);
  }

  /// The channel's id in the stage: its place in the listing, or in registration its reserved number.
  ghost predicate Numbered(entries: seq<Entry>, stage: Stage, global: nat, local: nat) {
    match stage
    case Reg => local == global && (global == ACK_ID_REGISTRATION || global == MANAGEMENT_ID_REGISTRATION)
    case Tra => local < |entries| && entries[local].global == global
  }

  /// Both lookups find exactly this, and so undo each other.
  lemma LookupsExactly(entries: seq<Entry>, stage: Stage, global: nat, local: nat)
    requires DistinctEntries(entries) && |entries| < NULL_ID
    ensures Appended(entries).LocalId(stage, global) == Some(local) <==> Numbered(entries, stage, global, local)
    ensures Appended(entries).GlobalId(stage, local) == Some(global) <==> Numbered(entries, stage, global, local)
  {
    AppendedShape(entries);
  }

  lemma AppendedNew(entries: seq<Entry>)
    requires DistinctEntries(entries) && 0 < |entries| < NULL_ID
    requires Appended(entries[..|entries| - 1]).Inverse()
    ensures Appended(entries[..|entries| - 1]).LocalId(Tra, entries[|entries| - 1].global).None?
  {
    var n := |entries| - 1;
    var before := Appended(entries[..n]);
    assert forall i :: 0 <= i < n ==> before.localToGlobal[i] == entries[i].global;
  }

  lemma AppendedId(entries: seq<Entry>, name: Bytes, before: nat, after: nat)
    requires DistinctEntries(entries) && 0 < |entries| < NULL_ID
    requires StandsAt(entries[..|entries| - 1], name, before)
    requires after == if entries[|entries| - 1].name == name then |entries| - 1 else Moved(before, |entries| - 1)
    ensures StandsAt(entries, name, after)
  {
    var n := |entries| - 1;
    assert forall i :: 0 <= i < n ==> entries[..n][i] == entries[i];
  }

  /// The same channels by name, with the ids of another provider.
  ghost function Renamed(entries: seq<Entry>, q: Provider): (r: seq<Entry>)
    ensures |r| == |entries|
    ensures forall i :: 0 <= i < |r| ==>
              r[i] == Entry(entries[i].name, if entries[i].name in q.names then q.names[entries[i].name] else 0)
  {
    seq(|entries|, i requires 0 <= i < |entries| =>
      Entry(entries[i].name, if entries[i].name in q.names then q.names[entries[i].name] else 0))
  }

  ghost predicate Known(entries: seq<Entry>, q: Provider) {
    forall i :: 0 <= i < |entries| ==> entries[i].name in q.names
  }

  lemma ListingDistinct(p: Provider, listing: seq<Entry>)
    requires p.WellFormed() && IsListing(p, listing)
    ensures DistinctEntries(listing)
  {
  }

  lemma RenamedDistinct(entries: seq<Entry>, q: Provider)
    requires q.WellFormed() && DistinctEntries(entries) && Known(entries, q)
    ensures DistinctEntries(Renamed(entries, q))
  {
  }

  /// Extending the known entries by one is one more insertion at the end.
  lemma AppendedSnoc(entries: seq<Entry>, e: Entry)
    ensures Appended(entries + [e]) == Appended(entries).Insert(|entries|, e.global, e.name).value
  {
    assert (entries + [e])[..|entries|] == entries;
  }

  // ---- The table in place ----

  class IdMapper {
    var localToGlobal: seq<nat>
    var globalToLocal: seq<nat>
    var ackChannelId: nat
    var managementChannelId: nat

    ghost function Model(): Ids
      reads this
    {
      Ids(localToGlobal, globalToLocal, ackChannelId, managementChannelId)
    }

    constructor ()
      ensures Model() == EmptyIds()
    {
      localToGlobal, globalToLocal := [], [];
      ackChannelId, managementChannelId := NULL_ID, NULL_ID;
    }

    function LocalId(stage: Stage, globalId: nat): (r: Option<nat>)
      reads this
      ensures r == Model().LocalId(stage, globalId)
      ensures Model().Inverse() && |localToGlobal| < NULL_ID ==>
                forall i: nat :: r == Some(i) <==> Model().GlobalId(stage, i) == Some(globalId)
    {
      match stage
      case Reg =>
        if globalId == ACK_ID_REGISTRATION || globalId == MANAGEMENT_ID_REGISTRATION then Some(globalId) else None
      case Tra =>
        if globalId >= |globalToLocal| || globalToLocal[globalId] == NULL_ID then None
        else Some(globalToLocal[globalId])
    }

    function GlobalId(stage: Stage, localId: nat): (r: Option<nat>)
      reads this
      ensures r == Model().GlobalId(stage, localId)
      ensures Model().Inverse() && |localToGlobal| < NULL_ID ==>
                forall g: nat :: r == Some(g) <==> Model().LocalId(stage, g) == Some(localId)
    {
      match stage
      case Reg =>
        if localId == ACK_ID_REGISTRATION || localId == MANAGEMENT_ID_REGISTRATION then Some(localId) else None
      case Tra => if localId >= |localToGlobal| then None else Some(localToGlobal[localId])
    }

    method Insert(localId: nat, globalId: nat, name: Bytes) returns (inserted: bool)
      modifies this
      ensures inserted <==> old(Model()).Insert(localId, globalId, name).Some?
      ensures Model() == if inserted then old(Model()).Insert(localId, globalId, name).value else old(Model())
      ensures old(Model()).Inverse() && localId == |old(localToGlobal)| < NULL_ID ==>
                (Model().Inverse() <==> old(Model()).LocalId(Tra, globalId).None?)
    {
      ghost var was := Model();
      if localId > |localToGlobal| {
        return false;
      }
      if was.Inverse() && localId == |was.localToGlobal| < NULL_ID {
        InsertKeepsInverseExactly(was, localId, globalId, name);
      }
      localToGlobal := localToGlobal[..localId] + [globalId] + localToGlobal[localId..];
      if ackChannelId != NULL_ID && ackChannelId > localId {
        ackChannelId := ackChannelId + 1;
      }
      if managementChannelId != NULL_ID && managementChannelId > localId {
        managementChannelId := managementChannelId + 1;
      }
      if |globalToLocal| <= globalId {
        globalToLocal := Padded(globalToLocal, globalId + 1);
      }
      globalToLocal := globalToLocal[globalId := localId];
      assert ACK_NAME[2] != MANAGEMENT_NAME[2];
      if name == ACK_NAME {
        ackChannelId := localId;
      } else if name == MANAGEMENT_NAME {
        managementChannelId := localId;
      }
      inserted := true;
    }
  }
}
