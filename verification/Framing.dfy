/** Layout of a datagram: primary header, segment metadata, order, key, payload. */
module Framing {
  import opened Base
  import opened VarInt
  import opened SlotKeys

  const MAX_NON_SEGMENTED_METADATA := 5 + 5 + 5 * 2
  const MAX_METADATA := MAX_NON_SEGMENTED_METADATA + 5 + 3 * 2
  const MAX_PACKET := 2000
  const MAX_NON_SEGMENTED_PAYLOAD := MAX_PACKET - MAX_NON_SEGMENTED_METADATA
  const SEGMENT_PAYLOAD := MAX_PACKET - MAX_METADATA

  const NULL_ID := 0x8000_0000
  const ACK_ID_REGISTRATION := NULL_ID - 1
  const MANAGEMENT_ID_REGISTRATION := NULL_ID - 2

  /// The two stages of a connection number their channels differently, so a channel is
  /// identified across stages by a lane.
  datatype Stage = Reg | Tra
  datatype Lane = Lane(stage: Stage, chan: nat)

  datatype SegmentMeta = SegmentMeta(key: nat, segment: nat, count: nat)

  datatype Packet = Packet(lane: Lane, seg: Option<SegmentMeta>, order: Option<nat>, key: Option<Key>, payload: Bytes)

  /// The fields fit their wire types, and the payload fits its budget.
  predicate PacketFits(p: Packet) {
    && p.lane.chan < NULL_ID
    && (p.seg.Some? ==> SegmentFits(p.seg.value) && |p.payload| <= SEGMENT_PAYLOAD)
    && (p.seg.None? ==> |p.payload| <= MAX_NON_SEGMENTED_PAYLOAD)
    && (p.order.Some? ==> p.order.value < U32)
    && (p.key.Some? ==> Fits(p.key.value))
  }

  predicate SegmentFits(m: SegmentMeta) {
    m.key < U32 && m.segment < U16 && 1 <= m.count <= U16
  }

  function EncodePrimary(chan: nat, segmented: bool): Bytes {
    Encode(2 * chan + if segmented then 1 else 0)
  }

  /// The count is at least 1 and is sent as the number of the last segment.
  function EncodeSegment(m: SegmentMeta): Bytes {
    Encode(m.key) + Encode(m.segment) + Encode(if m.count == 0 then 0 else m.count - 1)
  }

  function EncodeHeader(order: Option<nat>, key: Option<Key>): Bytes {
    (if order.Some? then Encode(order.value) else []) + (if key.Some? then EncodeKey(key.value) else [])
  }

  function Frame(p: Packet): Bytes {
    EncodePrimary(p.lane.chan, p.seg.Some?)
    + ((if p.seg.Some? then EncodeSegment(p.seg.value) else [])
       + (EncodeHeader(p.order, p.key) + p.payload))
  }

  datatype Primary = Primary(chan: nat, segmented: bool)
  datatype Header = Header(order: Option<nat>, key: Option<Key>)

  function DecodePrimary(s: Bytes): Decoded<Primary> {
    match Decode(s, 32)
    case Got(num, rest) => Got(Primary(num / 2, num % 2 == 1), rest)
    case Short => Short
    case Overlong => Overlong
  }

  function DecodeSegment(s: Bytes): Decoded<SegmentMeta> {
    match Decode(s, 32)
    case Short => Short
    case Overlong => Overlong
    case Got(key, s1) =>
      match Decode(s1, 16)
      case Short => Short
      case Overlong => Overlong
      case Got(segment, s2) =>
        match Decode(s2, 16)
        case Short => Short
        case Overlong => Overlong
        case Got(last, s3) => Got(SegmentMeta(key, segment, last + 1), s3)
  }

  /// Reads the order of an ordered channel, then the key of a reliable one.
  function ReadHeader(ordered: bool, reliable: bool, s: Bytes): Decoded<Header> {
    if ordered then
      match Decode(s, 32)
      case Short => Short
      case Overlong => Overlong
      case Got(order, rest) => ReadKey(Some(order), reliable, rest)
    else
      ReadKey(None, reliable, s)
  }

  function ReadKey(order: Option<nat>, reliable: bool, s: Bytes): Decoded<Header> {
    if reliable then
      match DecodeKey(s)
      case Short => Short
      case Overlong => Overlong
      case Got(key, rest) => Got(Header(order, Some(key)), rest)
    else
      Got(Header(order, None), s)
  }

  lemma HeaderRoundTrip(order: Option<nat>, key: Option<Key>, s: Bytes)
    requires (order.Some? ==> order.value < U32) && (key.Some? ==> Fits(key.value))
    ensures ReadHeader(order.Some?, key.Some?, EncodeHeader(order, key) + s) == Got(Header(order, key), s)
  {
    var o := if order.Some? then Encode(order.value) else [];
    var k := if key.Some? then EncodeKey(key.value) else [];
    assert EncodeHeader(order, key) + s == o + (k + s);
    if order.Some? {
      RoundTrip32(order.value, k + s);
    } else {
      assert o + (k + s) == k + s;
    }
    if key.Some? {
      KeyRoundTrip(key.value, s);
    } else {
      assert k + s == s;
    }
  }

  lemma PrimaryRoundTrip(chan: nat, segmented: bool, s: Bytes)
    requires chan < NULL_ID
    ensures DecodePrimary(EncodePrimary(chan, segmented) + s) == Got(Primary(chan, segmented), s)
  {
    hide Decode, Encode;
    var num := 2 * chan + if segmented then 1 else 0;
    RoundTrip32(num, s);
    assert num / 2 == chan && (num % 2 == 1) == segmented;
  }

  lemma SegmentRoundTrip(m: SegmentMeta, s: Bytes)
    requires SegmentFits(m)
    ensures DecodeSegment(EncodeSegment(m) + s) == Got(m, s)
  {
    var s2 := Encode(m.count - 1) + s;
    var s1 := Encode(m.segment) + s2;
    assert EncodeSegment(m) + s == Encode(m.key) + s1;
    RoundTrip32(m.key, s1);
    RoundTrip16(m.segment, s2);
    RoundTrip16(m.count - 1, s);
  }

  /// What a receiver that knows the channel's kind reads from a datagram, field by field.
  datatype Parsed = Parsed(primary: Primary, seg: Option<SegmentMeta>, header: Header, payload: Bytes)

  function Parse(ordered: bool, reliable: bool, s: Bytes): Option<Parsed> {
    match DecodePrimary(s)
    case Got(primary, rest) =>
      if primary.segmented then
        match DecodeSegment(rest)
        case Got(m, rest') => (
          match ReadHeader(ordered, reliable, rest')
          case Got(h, payload) => Some(Parsed(primary, Some(m), h, payload))
          case _ => None)
        case _ => None
      else (
        match ReadHeader(ordered, reliable, rest)
        case Got(h, payload) => Some(Parsed(primary, None, h, payload))
        case _ => None)
    case _ => None
  }

  /// Every channel kind: reading a framed packet recovers each field and leaves the payload.
  lemma FrameRoundTrip(p: Packet)
    requires PacketFits(p)
    ensures Parse(p.order.Some?, p.key.Some?, Frame(p))
         == Some(Parsed(Primary(p.lane.chan, p.seg.Some?), p.seg, Header(p.order, p.key), p.payload))
    ensures FrameReads(p, Frame(p))
  {
    var body := EncodeHeader(p.order, p.key) + p.payload;
    var middle := if p.seg.Some? then EncodeSegment(p.seg.value) else [];
    PrimaryRoundTrip(p.lane.chan, p.seg.Some?, middle + body);
    HeaderRoundTrip(p.order, p.key, p.payload);
    if p.seg.Some? {
      SegmentRoundTrip(p.seg.value, body);
    } else {
      assert middle + body == body;
    }
  }

  /// The three decoding steps of a receiver on datagram `d`, each yielding the fields of `p`.
  ghost predicate FrameReads(p: Packet, d: Bytes) {
    && DecodePrimary(d).Got?
    && DecodePrimary(d).value == Primary(p.lane.chan, p.seg.Some?)
    && var s := DecodePrimary(d).rest;
    && (p.seg.Some? ==> DecodeSegment(s).Got? && DecodeSegment(s).value == p.seg.value)
    && var s' := if p.seg.Some? then DecodeSegment(s).rest else s;
    && ReadHeader(p.order.Some?, p.key.Some?, s') == Got(Header(p.order, p.key), p.payload)
  }

  /// No framed packet exceeds the datagram limit.
  lemma FrameSize(p: Packet)
    requires PacketFits(p)
    ensures |Frame(p)| <= MAX_PACKET
  {
    EncodeAtMost5(2 * p.lane.chan + if p.seg.Some? then 1 else 0);
    if p.seg.Some? {
      EncodeAtMost5(p.seg.value.key);
      EncodeAtMost3(p.seg.value.segment);
      EncodeAtMost3(p.seg.value.count - 1);
    }
    if p.order.Some? {
      EncodeAtMost5(p.order.value);
    }
    if p.key.Some? {
      KeyLength(p.key.value);
    }
  }

  /// The segments of a payload, `chunks(SEGMENT_PAYLOAD)`.
  function Chunks(payload: Bytes): (parts: seq<Bytes>)
    ensures forall i :: 0 <= i < |parts| ==> 1 <= |parts[i]| <= SEGMENT_PAYLOAD
    ensures payload != [] ==> parts != []
  {
    if payload == [] then []
    else if |payload| <= SEGMENT_PAYLOAD then [payload]
    else [payload[..SEGMENT_PAYLOAD]] + Chunks(payload[SEGMENT_PAYLOAD..])
  }

  lemma {:induction false} ChunksFlat(payload: Bytes)
    ensures Flat(Chunks(payload)) == payload
  {
    if |payload| > SEGMENT_PAYLOAD {
      ChunksFlat(payload[SEGMENT_PAYLOAD..]);
      assert Chunks(payload)[1..] == Chunks(payload[SEGMENT_PAYLOAD..]);
    } else if payload != [] {
      assert Flat([payload]) == payload + Flat([]);
    }
  }

  /// Every segment but the last is full, so each place of the payload is in one known segment.
  lemma {:induction false} ChunkAt(payload: Bytes, i: nat)
    requires i < |Chunks(payload)|
    ensures var from, to := SEGMENT_PAYLOAD * i, SEGMENT_PAYLOAD * (i + 1);
            && from < |payload| && (i + 1 < |Chunks(payload)| <==> to < |payload|)
            && Chunks(payload)[i] == payload[from..if to < |payload| then to else |payload|]
  {
    if |payload| > SEGMENT_PAYLOAD {
      var rest := payload[SEGMENT_PAYLOAD..];
      assert Chunks(payload)[1..] == Chunks(rest);
      if i > 0 {
        ChunkAt(rest, i - 1);
      }
    }
  }

  /// What the receiver makes of a joined segment after the first: it strips a header that the
  /// sender did not put there. A header that cannot be read has used up the whole segment.
  function Stripped(ordered: bool, reliable: bool, part: Bytes): Option<Bytes> {
    match ReadHeader(ordered, reliable, part)
    case Got(_, rest) => Some(rest)
    case Short => Some([])
    case Overlong => None
  }

  datatype Rejoined = Joined(order: Option<nat>, payload: Bytes) | Unreadable | Crashed

  function StripAll(ordered: bool, reliable: bool, parts: seq<Bytes>): Option<Bytes> {
    if parts == [] then Some([])
    else
      match Stripped(ordered, reliable, parts[0])
      case None => None
      case Some(head) =>
        match StripAll(ordered, reliable, parts[1..])
        case None => None
        case Some(tail) => Some(head + tail)
  }

  /// The message a receiver makes of a complete list of segments.
  function Rejoin(ordered: bool, reliable: bool, parts: seq<Bytes>): Rejoined
    requires parts != []
  {
    match ReadHeader(ordered, reliable, parts[0])
    case Short => Unreadable
    case Overlong => Crashed
    case Got(h, first) =>
      match StripAll(ordered, reliable, parts[1..])
      case None => Crashed
      case Some(tail) => Joined(h.order, first + tail)
  }

  /// The header has the fields that the channel's kind asks for, and they fit.
  predicate HeaderFits(ordered: bool, reliable: bool, h: Header) {
    && h.order.Some? == ordered && (ordered ==> h.order.value < U32)
    && h.key.Some? == reliable && (reliable ==> Fits(h.key.value))
  }

  /// The part is a header and then `rest`, or too short to be read as one, when nothing is left of it.
  ghost predicate Leaves(ordered: bool, reliable: bool, part: Bytes, rest: Bytes) {
    || (exists h :: HeaderFits(ordered, reliable, h) && part == EncodeHeader(h.order, h.key) + rest)
    || (ReadHeader(ordered, reliable, part).Short? && rest == [])
  }

  lemma StrippedLeaves(ordered: bool, reliable: bool, part: Bytes, rest: Bytes)
    requires Leaves(ordered, reliable, part, rest)
    ensures Stripped(ordered, reliable, part) == Some(rest)
  {
    hide ReadHeader, EncodeHeader;
    if h :| HeaderFits(ordered, reliable, h) && part == EncodeHeader(h.order, h.key) + rest {
      HeaderRoundTrip(h.order, h.key, rest);
    }
  }

  lemma {:induction false} StripAllLeaves(ordered: bool, reliable: bool, parts: seq<Bytes>, rests: seq<Bytes>)
    requires |parts| == |rests| && forall i :: 0 <= i < |parts| ==> Leaves(ordered, reliable, parts[i], rests[i])
    ensures StripAll(ordered, reliable, parts) == Some(Flat(rests))
  {
    hide Leaves, Stripped;
    if parts != [] {
      StrippedLeaves(ordered, reliable, parts[0], rests[0]);
      StripAllLeaves(ordered, reliable, parts[1..], rests[1..]);
    }
  }

  /// What the second strip makes of a message: from every segment it takes off what reads as a header
  /// of the channel, a later segment too short for one is lost, and the order is that of the first.
  lemma RejoinStrips(ordered: bool, reliable: bool, h: Header, parts: seq<Bytes>, rests: seq<Bytes>)
    requires |parts| == |rests| > 0 && HeaderFits(ordered, reliable, h)
    requires parts[0] == EncodeHeader(h.order, h.key) + rests[0]
    requires forall i :: 1 <= i < |parts| ==> Leaves(ordered, reliable, parts[i], rests[i])
    ensures Rejoin(ordered, reliable, parts) == Joined(h.order, Flat(rests))
  {
    hide ReadHeader, EncodeHeader, Leaves, StripAll;
    HeaderRoundTrip(h.order, h.key, rests[0]);
    StripAllLeaves(ordered, reliable, parts[1..], rests[1..]);
  }

  lemma {:induction false} StripAllFails(ordered: bool, reliable: bool, parts: seq<Bytes>)
    ensures StripAll(ordered, reliable, parts).None?
       <==> exists i :: 0 <= i < |parts| && ReadHeader(ordered, reliable, parts[i]).Overlong?
  {
    hide ReadHeader;
    if parts != [] {
      StripAllFails(ordered, reliable, parts[1..]);
      if i :| 0 <= i < |parts| && ReadHeader(ordered, reliable, parts[i]).Overlong? {
        assert i > 0 ==> parts[1..][i - 1] == parts[i];
      }
    }
  }

  /// When it fails instead: the first segment is too short for a header, an error; or it, or after a
  /// readable one any later segment, starts with a number without end, a panic.
  lemma RejoinFails(ordered: bool, reliable: bool, parts: seq<Bytes>)
    requires parts != []
    ensures Rejoin(ordered, reliable, parts).Unreadable? <==> ReadHeader(ordered, reliable, parts[0]).Short?
    ensures Rejoin(ordered, reliable, parts).Crashed?
       <==> !ReadHeader(ordered, reliable, parts[0]).Short?
            && exists i :: 0 <= i < |parts| && ReadHeader(ordered, reliable, parts[i]).Overlong?
  {
    hide ReadHeader, StripAll;
    StripAllFails(ordered, reliable, parts[1..]);
    if i :| 0 <= i < |parts| && ReadHeader(ordered, reliable, parts[i]).Overlong? {
      assert i > 0 ==> parts[1..][i - 1] == parts[i];
    }
    if i :| 0 <= i < |parts[1..]| && ReadHeader(ordered, reliable, parts[1..][i]).Overlong? {
      assert parts[i + 1] == parts[1..][i];
    }
  }

  lemma HeaderShrinks(ordered: bool, reliable: bool, s: Bytes)
    requires ReadHeader(ordered, reliable, s).Got?
    ensures |ReadHeader(ordered, reliable, s).rest| + (if ordered || reliable then 1 else 0) <= |s|
  {
  }

  lemma {:induction false} StripAllShrinks(ordered: bool, reliable: bool, parts: seq<Bytes>)
    requires StripAll(ordered, reliable, parts).Some?
    ensures |StripAll(ordered, reliable, parts).value| <= |Flat(parts)|
    ensures !ordered && !reliable ==> StripAll(ordered, reliable, parts).value == Flat(parts)
  {
    if parts != [] {
      if ReadHeader(ordered, reliable, parts[0]).Got? {
        HeaderShrinks(ordered, reliable, parts[0]);
      }
      StripAllShrinks(ordered, reliable, parts[1..]);
    }
  }

  lemma {:induction false} PlainStripAll(parts: seq<Bytes>)
    ensures StripAll(false, false, parts) == Some(Flat(parts))
  {
    if parts != [] {
      PlainStripAll(parts[1..]);
    }
  }

  /// On a channel with headers, a message that starts with six bytes over 127 looks like a number
  /// without end when its headers are read a second time.
  lemma HighBytesCrash(ordered: bool, reliable: bool, payload: Bytes)
    requires (ordered || reliable) && |payload| >= 6 && forall i :: 0 <= i < 6 ==> payload[i] >= 128
    ensures Rejoin(ordered, reliable, Chunks(payload)).Crashed?
  {
    hide Decode, DecodeFrom, StripAll;
    var first := Chunks(payload)[0];
    HighBytes(first);
  }

  lemma HighBytes(s: Bytes)
    requires |s| >= 6 && forall i :: 0 <= i < 6 ==> s[i] >= 128
    ensures Decode(s, 32).Overlong?
  {
    DecodeFails(s, 32);
    assert AsksOn(s, 5);
  }

  /// The end-to-end promise for segmented messages, and exactly when the code keeps it: a message
  /// comes out of the second header strip unchanged if and only if its channel has no headers.
  lemma RejoinExactlyPlain(ordered: bool, reliable: bool, payload: Bytes)
    requires payload != []
    ensures (exists order :: Rejoin(ordered, reliable, Chunks(payload)) == Joined(order, payload))
       <==> !ordered && !reliable
  {
    var parts := Chunks(payload);
    ChunksFlat(payload);
    if !ordered && !reliable {
      PlainStripAll(parts[1..]);
      assert Rejoin(ordered, reliable, parts) == Joined(None, payload);
    } else if ReadHeader(ordered, reliable, parts[0]).Got? {
      HeaderShrinks(ordered, reliable, parts[0]);
      if StripAll(ordered, reliable, parts[1..]).Some? {
        StripAllShrinks(ordered, reliable, parts[1..]);
        assert |Rejoin(ordered, reliable, parts).payload| < |payload|;
      }
    }
  }

  lemma HeaderOrderFits(ordered: bool, reliable: bool, s: Bytes)
    requires ReadHeader(ordered, reliable, s).Got?
    ensures var h := ReadHeader(ordered, reliable, s).value; h.order.Some? ==> h.order.value < USIZE
  {
    hide Decode, DecodeKey;
    Pow2Widths();
    if ordered {
      DecodedFits(s, 32);
    }
  }

  lemma RejoinOrderFits(ordered: bool, reliable: bool, parts: seq<Bytes>)
    requires parts != [] && Rejoin(ordered, reliable, parts).Joined?
    ensures var r := Rejoin(ordered, reliable, parts); r.order.Some? ==> r.order.value < USIZE
  {
    hide ReadHeader, StripAll;
    HeaderOrderFits(ordered, reliable, parts[0]);
  }

  lemma {:induction false} StripSnoc(ordered: bool, reliable: bool, parts: seq<Bytes>, part: Bytes)
    ensures StripAll(ordered, reliable, parts + [part])
         == match StripAll(ordered, reliable, parts)
            case None => None
            case Some(front) =>
              match Stripped(ordered, reliable, part)
              case None => None
              case Some(last) => Some(front + last)
  {
    if parts == [] {
      assert parts + [part] == [part] && [part][1..] == [];
      var last := Stripped(ordered, reliable, part);
      if last.Some? {
        assert last.value + [] == last.value == [] + last.value;
      }
    } else {
      assert (parts + [part])[1..] == parts[1..] + [part];
      StripSnoc(ordered, reliable, parts[1..], part);
      var head, last := Stripped(ordered, reliable, parts[0]), Stripped(ordered, reliable, part);
      var front := StripAll(ordered, reliable, parts[1..]);
      if head.Some? && front.Some? && last.Some? {
        assert head.value + (front.value + last.value) == head.value + front.value + last.value;
      }
    }
  }

  /// `None` says that some segment cannot be stripped, which then holds of all segments together.
  lemma {:induction false} StripFails(ordered: bool, reliable: bool, parts: seq<Bytes>, i: nat)
    requires i < |parts| && Stripped(ordered, reliable, parts[i]).None?
    ensures StripAll(ordered, reliable, parts).None?
  {
    if i > 0 {
      StripFails(ordered, reliable, parts[1..], i - 1);
    }
  }

  /// The receiver's loop over the segments of a complete message.
  method JoinParts(ordered: bool, reliable: bool, parts: seq<Bytes>) returns (r: Rejoined)
    requires parts != []
    ensures r == Rejoin(ordered, reliable, parts)
  {
    hide Stripped, ReadHeader;
    var first := ReadHeader(ordered, reliable, parts[0]);
    if first.Short? {
      return Unreadable;
    } else if first.Overlong? {
      return Crashed;
    }
    var full: Bytes := first.rest;
    var i := 1;
    assert parts[1..1] == [];
    while i < |parts|
      invariant 1 <= i <= |parts|
      invariant StripAll(ordered, reliable, parts[1..i]).Some?
      invariant full == first.rest + StripAll(ordered, reliable, parts[1..i]).value
    {
      var stripped := Stripped(ordered, reliable, parts[i]);
      if stripped.None? {
        assert parts[1..][i - 1] == parts[i];
        StripFails(ordered, reliable, parts[1..], i - 1);
        return Crashed;
      }
      StripSnoc(ordered, reliable, parts[1..i], parts[i]);
      assert parts[1..i + 1] == parts[1..i] + [parts[i]];
      full := full + stripped.value;
      i := i + 1;
    }
    assert parts[1..i] == parts[1..];
    r := Joined(first.value.order, full);
  }

  /// A datagram is built by appending one field after another.
  lemma FrameBuilt(p: Packet)
    ensures var s := EncodePrimary(p.lane.chan, p.seg.Some?);
            var s' := if p.seg.Some? then s + EncodeSegment(p.seg.value) else s;
            var s'' := if p.order.Some? then s' + Encode(p.order.value) else s';
            Frame(p) == (if p.key.Some? then s'' + EncodeKey(p.key.value) else s'') + p.payload
  {
  }
}
