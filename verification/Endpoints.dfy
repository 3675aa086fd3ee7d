/**
 One endpoint of a connection as a value, and its operations as functions. Beside the program's
 own fields an endpoint carries history: what was sent, accepted, handled and so on. No operation
 reads the history.
 */
module Endpoints {
  import opened Base
  import opened VarInt
  import opened SlotKeys
  import opened SlotMaps
  import opened Framing
  import opened Strings
  import opened Channels
  import O = Ordering
  import R = Resend
  import J = Joining

  // ---- Results ----

  datatype Error =
    | DecodeError | EncodeError | UnknownChannel | InvalidValue | DuplicateDetected
    | ResenderFull | OrdererFull | JoinerRefused | Unregistered

  /// `Crash` is a panic of the program: the endpoint takes no further step.
  datatype Outcome = Fine | Fail(error: Error) | Crash

  // ---- State ----

  datatype State = Registration(receivedLast: bool, lastKey: Option<Key>) | Transfer

  function StageOf(s: State): Stage {
    if s.Transfer? then Tra else Reg
  }

  /// Data per channel: the two system channels of the registration stage, then the others.
  datatype PerChannel<T> = PerChannel(basic: seq<T>, ack: T, management: T) {
    predicate Has(lane: Lane) {
      match lane.stage
      case Reg => lane.chan == ACK_ID_REGISTRATION || lane.chan == MANAGEMENT_ID_REGISTRATION
      case Tra => lane.chan < |basic|
    }

    function At(lane: Lane): T
      requires Has(lane)
    {
      match lane.stage
      case Reg => if lane.chan == ACK_ID_REGISTRATION then ack else management
      case Tra => basic[lane.chan]
    }

    function With(lane: Lane, v: T): PerChannel<T>
      requires Has(lane)
    {
      match lane.stage
      case Reg => if lane.chan == ACK_ID_REGISTRATION then this.(ack := v) else this.(management := v)
      case Tra => this.(basic := basic[lane.chan := v])
    }

    /// Sets an entry of the transfer stage, filling up with `blank` as far as needed.
    function Set(chan: nat, v: T, blank: T): PerChannel<T> {
      if chan < |basic| then this.(basic := basic[chan := v])
      else this.(basic := basic + seq(chan - |basic|, _ => blank) + [v])
    }
  }

  datatype Message = Message(lane: Lane, payload: Bytes)

  /// The sending side. `wire` is every datagram handed to the socket so far.
  datatype Tx = Tx(
    resender: R.Resender, segmentKeys: nat, orders: PerChannel<nat>, wire: seq<Bytes>,
    // history
    sent: seq<Packet>,                      // every packet put on the wire, once
    submitted: map<Lane, seq<Bytes>>,       // every payload given to a channel, in order
    messages: seq<Message>,                 // every message sent in segments, by segment key
    released: seq<Key>,                     // keys removed from the resender by an acknowledgement
    listing: seq<Entry>, finalKey: Option<Key>,
    wrapped: bool)                          // some 32-bit counter has started over

  datatype Accepted = Accepted(stage: Stage, key: Key)

  /// The receiving side. A buffer is everything the application was given or still has to take.
  datatype Rx = Rx(
    notLocal: Ids, dup: set<Key>, orderers: PerChannel<Option<O.Window>>, joiner: J.Joiner,
    buffers: map<nat, seq<Bytes>>,
    // history
    accepted: seq<Accepted>,                // keys that got past the duplicate check
    noted: set<Key>,                        // those whose acknowledgement could be noted as well
    listed: seq<Accepted>,                  // the same, in order
    handled: map<Lane, seq<Bytes>>,         // registrations performed, payloads put in a buffer
    pushed: map<Lane, seq<nat>>)            // orders that reached the orderer

  datatype Endpoint = Endpoint(state: State, local: Ids, ack: Bytes, tx: Tx, rx: Rx)

  function Lookup<T>(m: map<Lane, seq<T>>, lane: Lane): seq<T> {
    if lane in m then m[lane] else []
  }

  function Log<T>(m: map<Lane, seq<T>>, lane: Lane, v: T): map<Lane, seq<T>> {
    m[lane := Lookup(m, lane) + [v]]
  }

  function BufferOf(buffers: map<nat, seq<Bytes>>, g: nat): seq<Bytes> {
    if g in buffers then buffers[g] else []
  }

  const ACK_LANE := Lane(Reg, ACK_ID_REGISTRATION)
  const MANAGEMENT_LANE := Lane(Reg, MANAGEMENT_ID_REGISTRATION)

  function NewEndpoint(): Endpoint {
    Endpoint(
      Registration(false, None), EmptyIds(), [],
      Tx(R.Resender(Empty(), 0), 0, PerChannel([], 0, 0), [], [], map[], [], [], [], None, false),
      Rx(EmptyIds(), {}, PerChannel([], None, Some(O.NewWindow(MANAGEMENT_CHANNEL.capacity.value))), map[], map[],
         [], {}, [], map[], map[]))
  }

  // ---- Sending ----

  datatype Sent = Sent(tx: Tx, out: Outcome, key: Option<Key>)

  /// Puts one packet on the wire; on a reliable channel it gets a key and stays in the resender.
  function SendReal(tx: Tx, ch: Channel, p: Packet): Sent {
    if p.lane.chan >= NULL_ID then Sent(tx, Fail(EncodeError), None)
    else if p.seg.Some? && !(p.seg.value.segment < U16 && p.seg.value.count <= U16) then Sent(tx, Crash, None)
    else
      match ch.reliability
      case None => Sent(tx.(wire := tx.wire + [Frame(p)], sent := tx.sent + [p]), Fine, None)
      case Some(r) =>
        if tx.resender.Full() then Sent(tx, Fail(ResenderFull), None)
        else if tx.resender.Exhausted() then Sent(tx, Crash, None)
        else
          var slots := tx.resender.slots;
          var keyed := p.(key := Some(slots.NextKey()));
          Sent(tx.(resender := tx.resender.Add(R.Buffered(Frame(keyed), r.interval, r.attempts, 0)),
                   wire := tx.wire + [Frame(keyed)], sent := tx.sent + [keyed],
                   wrapped := tx.wrapped || slots.NextIndex() >= U32),
               Fine, Some(slots.NextKey()))
  }

  function SendSegments(tx: Tx, ch: Channel, lane: Lane, order: Option<nat>, key: nat, parts: seq<Bytes>, i: nat): Sent
    requires i <= |parts|
    decreases |parts| - i
  {
    if i == |parts| then Sent(tx, Fine, None)
    else
      var r := SendReal(tx, ch, Packet(lane, Some(SegmentMeta(key, i, |parts|)), order, None, parts[i]));
      if r.out.Fine? then SendSegments(r.tx, ch, lane, order, key, parts, i + 1) else r
  }

  /// The order is used up and the payload recorded before anything can fail.
  function Submit(tx: Tx, ch: Channel, lane: Lane, payload: Bytes): Tx
    requires ch.IsOrdered() ==> tx.orders.Has(lane)
  {
    var recorded := tx.(submitted := Log(tx.submitted, lane, payload));
    if ch.IsOrdered() then
      var o := tx.orders.At(lane);
      recorded.(orders := tx.orders.With(lane, Next32(o)), wrapped := tx.wrapped || o == U32 - 1)
    else recorded
  }

  function OpenMessage(tx: Tx, lane: Lane, payload: Bytes): Tx {
    tx.(segmentKeys := Next32(tx.segmentKeys), messages := tx.messages + [Message(lane, payload)],
        wrapped := tx.wrapped || tx.segmentKeys == U32 - 1)
  }

  function SendPacket(tx: Tx, ch: Channel, lane: Lane, payload: Bytes): Sent {
    if ch.IsOrdered() && !tx.orders.Has(lane) then Sent(tx, Crash, None)
    else
      var order := if ch.IsOrdered() then Some(tx.orders.At(lane)) else None;
      var tx' := Submit(tx, ch, lane, payload);
      if |payload| > MAX_NON_SEGMENTED_PAYLOAD then
        SendSegments(OpenMessage(tx', lane, payload), ch, lane, order, tx'.segmentKeys, Chunks(payload), 0)
      else
        SendReal(tx', ch, Packet(lane, None, order, None, payload))
  }

  // ---- Acknowledging ----

  datatype Acked = Acked(tx: Tx, ack: Bytes, out: Outcome)

  function AckLaneOf(stage: Stage, ackId: nat): Lane {
    if stage.Reg? then ACK_LANE else Lane(Tra, ackId)
  }

  /// Sends the buffered keys, even none. A failure leaves them in the buffer.
  function Flush(tx: Tx, ack: Bytes, stage: Stage, ackId: nat): Acked {
    var r := SendPacket(tx, ACK_CHANNEL, AckLaneOf(stage, ackId), ack);
    Acked(r.tx, if r.out.Fine? then [] else ack, r.out)
  }

  /// Buffers a key, flushing first if it would not fit in one packet with the others.
  function Acknowledge(tx: Tx, ack: Bytes, key: Key, stage: Stage, ackId: nat): Acked {
    if |ack + EncodeKey(key)| > MAX_NON_SEGMENTED_PAYLOAD then
      var r := Flush(tx, ack, stage, ackId);
      if r.out.Fine? then r.(ack := EncodeKey(key)) else r
    else
      Acked(tx, ack + EncodeKey(key), Fine)
  }

  // ---- Receiving ----

  datatype Res = Res(x: Endpoint, out: Outcome)

  /// The step from registration to transfer, with its cleanup.
  function EnterTransfer(x: Endpoint): Endpoint {
    x.(state := Transfer, ack := [],
       tx := x.tx.(resender := x.tx.resender.(slots := x.tx.resender.slots.Clear())),
       rx := x.rx.(dup := {}))
  }

  function Converted(x: Endpoint): Endpoint {
    if x.state == Registration(true, None) then EnterTransfer(x) else x
  }

  function AckOne(x: Endpoint, k: Key): Endpoint {
    x.(state := if x.state.Registration? && x.state.lastKey == Some(k) then x.state.(lastKey := None) else x.state,
       tx := x.tx.(resender := x.tx.resender.Remove(k),
                   released := if x.tx.resender.slots.Get(k).Some? then x.tx.released + [k] else x.tx.released))
  }

  /// Releases the packets whose keys the peer lists.
  function AckLocally(x: Endpoint, packet: Bytes): Res
    decreases |packet|
  {
    match DecodeKey(packet)
    case Short => Res(x, Fine)
    case Overlong => Res(x, Crash)
    case Got(k, rest) =>
      if k.index >= |x.tx.resender.slots.generations| then Res(x, Crash) else AckLocally(AckOne(x, k), rest)
  }

  function HandledNow(rx: Rx, lane: Lane, packet: Bytes): Rx {
    rx.(handled := Log(rx.handled, lane, packet))
  }

  /// A packet of the registration stage's management channel: a name and an id, or the end.
  function Register(x: Endpoint, prov: Provider, packet: Bytes): Res {
    match DecodeStr(packet, MAX_NAME)
    case Short => Res(x, Fail(DecodeError))
    case Overlong => Res(x, Crash)
    case Got(None, _) => Res(x, Fail(DecodeError))
    case Got(Some(name), rest) =>
      if name == [] then
        Res(Converted(x.(state := if x.state.Registration? then x.state.(receivedLast := true) else x.state,
                         rx := HandledNow(x.rx, MANAGEMENT_LANE, packet))), Fine)
      else
        RegisterChannel(x, prov, name, rest, packet)
  }

  function RegisterChannel(x: Endpoint, prov: Provider, name: Bytes, rest: Bytes, packet: Bytes): Res {
    match Decode(rest, 32)
    case Short => Res(x, Fail(DecodeError))
    case Overlong => Res(x, Crash)
    case Got(id, _) =>
      match prov.ByName(name)
      case None => Res(x, Fail(UnknownChannel))
      case Some(global) => EnterChannel(x, prov, name, id, global, packet)
  }

  /// Enters a channel of the peer into the table, under the receiver's own id for its name.
  function EnterChannel(x: Endpoint, prov: Provider, name: Bytes, id: nat, global: nat, packet: Bytes): Res {
    match x.rx.notLocal.Insert(id, global, name)
    case None => Res(x, Fail(InvalidValue))
    case Some(ids) =>
      match prov.ById(global)
      case None => Res(x.(rx := x.rx.(notLocal := ids)), Crash)
      case Some(ch) =>
        var orderers :=
          if ch.IsOrdered() then x.rx.orderers.Set(id, Some(O.NewWindow(ch.capacity.value)), None)
          else x.rx.orderers;
        Res(x.(rx := HandledNow(x.rx.(notLocal := ids, orderers := orderers), MANAGEMENT_LANE, packet)), Fine)
  }

  /// One message on a channel, in its turn.
  function HandleOne(x: Endpoint, prov: Provider, lane: Lane, global: nat, packet: Bytes): Res {
    if x.state.Registration? then
      if lane.chan == ACK_ID_REGISTRATION then
        var r := AckLocally(x, packet);
        if r.out.Fine? then Res(Converted(r.x), Fine) else r
      else if lane.chan == MANAGEMENT_ID_REGISTRATION then Register(x, prov, packet)
      else Res(x, Crash)
    else if x.rx.notLocal.ack != NULL_ID && x.rx.notLocal.ack == lane.chan then AckLocally(x, packet)
    else if x.rx.notLocal.management != NULL_ID && x.rx.notLocal.management == lane.chan then Res(x, Crash)
    else if global !in x.rx.buffers then Res(x, Crash)
    else
      var buffers := x.rx.buffers[global := x.rx.buffers[global] + [packet]];
      Res(x.(rx := HandledNow(x.rx.(buffers := buffers), lane, packet)), Fine)
  }

  /// What waits on a lane of the receiver, if its orderer is there.
  function WindowOf(x: Endpoint, lane: Lane): Option<O.Window> {
    if x.rx.orderers.Has(lane) then x.rx.orderers.At(lane) else None
  }

  /// The orderer's callback, with the endpoint as the state it captures.
  function Handler(prov: Provider, lane: Lane, global: nat): (Res, Bytes) -> (Res, bool) {
    (r: Res, packet: Bytes) =>
      var r' := HandleOne(r.x, prov, lane, global, packet);
      (r', r'.out.Fine?)
  }

  function WithOrderer(x: Endpoint, lane: Lane, w: Option<O.Window>): Endpoint {
    if x.rx.orderers.Has(lane) then x.(rx := x.rx.(orderers := x.rx.orderers.With(lane, w))) else x
  }

  /// A message that is complete and new, through the orderer if the channel has one. The orderer
  /// is taken out meanwhile, and an error on the way loses it.
  function Deliver(x: Endpoint, prov: Provider, lane: Lane, global: nat, order: Option<nat>, payload: Bytes): Res {
    match order
    case None => HandleOne(x, prov, lane, global, payload)
    case Some(o) =>
      if !x.rx.orderers.Has(lane) then Res(x, Crash)
      else
        match x.rx.orderers.At(lane)
        case None => Res(x, Crash)
        case Some(w) =>
          var taken := Taken(x, lane, o);
          if w.Bursts(o) then Res(taken, Crash)
          else if w.Refuses(o) then Res(taken, Fail(OrdererFull))
          else
            var d := O.Drain(w.Push(o, payload).value, Handler(prov, lane, global), Res(taken, Fine));
            if d.fine then Res(WithOrderer(d.state.x, lane, Some(d.window)), Fine) else d.state
  }

  function Taken(x: Endpoint, lane: Lane, order: nat): Endpoint {
    var y := WithOrderer(x, lane, None);
    y.(rx := y.rx.(pushed := Log(y.rx.pushed, lane, order)))
  }

  function Noted(rx: Rx, a: Accepted): Rx {
    rx.(noted := rx.noted + {a.key}, listed := rx.listed + [a])
  }

  /// The duplicate check of a keyed packet, which also acknowledges it.
  function Accept(x: Endpoint, key: Option<Key>): Res {
    match key
    case None => Res(x, Fine)
    case Some(k) =>
      if k in x.rx.dup then Res(x, Fail(DuplicateDetected))
      else
        var rx := x.rx.(dup := x.rx.dup + {k}, accepted := x.rx.accepted + [Accepted(StageOf(x.state), k)]);
        if x.local.ack == NULL_ID then Res(x.(rx := rx), Crash)
        else
          var r := Acknowledge(x.tx, x.ack, k, StageOf(x.state), x.local.ack);
          Res(x.(rx := if r.out.Fine? then Noted(rx, Accepted(StageOf(x.state), k)) else rx, tx := r.tx, ack := r.ack),
              r.out)
  }

  function ChannelOf(stage: Stage, local: nat, global: nat, prov: Provider): Option<Channel> {
    match stage
    case Reg =>
      if local == ACK_ID_REGISTRATION then Some(ACK_CHANNEL)
      else if local == MANAGEMENT_ID_REGISTRATION then Some(MANAGEMENT_CHANNEL)
      else None
    case Tra => prov.ById(global)
  }

  /// A whole message that came in one packet.
  function ReceiveWhole(x: Endpoint, prov: Provider, lane: Lane, global: nat, h: Header, payload: Bytes): Res {
    var a := Accept(x, h.key);
    if a.out.Fine? then Deliver(a.x, prov, lane, global, h.order, payload) else a
  }

  /// A segment. When it completes its message, the headers are read a second time.
  function ReceiveSegment(x: Endpoint, prov: Provider, lane: Lane, global: nat, ch: Channel, meta: SegmentMeta,
        h: Header, payload: Bytes): Res {
    var a := Accept(x, h.key);
    if !a.out.Fine? then a
    else
      var j := J.Join(a.x.rx.joiner, meta, payload);
      var y := a.x.(rx := a.x.rx.(joiner := j.joiner));
      match j.result
      case Pending => Res(y, Fine)
      case Refused(_) => Res(y, Fail(JoinerRefused))
      case OutOfRange => Res(y, Crash)
      case Complete(parts) =>
        if parts == [] then Res(y, Crash)
        else
          match Rejoin(ch.IsOrdered(), ch.IsReliable(), parts)
          case Unreadable => Res(y, Fail(DecodeError))
          case Crashed => Res(y, Crash)
          case Joined(order, full) => Deliver(y, prov, lane, global, order, full)
  }

  function ReceiveBody(x: Endpoint, prov: Provider, lane: Lane, global: nat, ch: Channel, segmented: bool,
        body: Bytes): Res {
    if segmented then
      match DecodeSegment(body)
      case Short => Res(x, Fail(DecodeError))
      case Overlong => Res(x, Crash)
      case Got(meta, rest) =>
        match ReadHeader(ch.IsOrdered(), ch.IsReliable(), rest)
        case Short => Res(x, Fail(DecodeError))
        case Overlong => Res(x, Crash)
        case Got(h, payload) => ReceiveSegment(x, prov, lane, global, ch, meta, h, payload)
    else
      match ReadHeader(ch.IsOrdered(), ch.IsReliable(), body)
      case Short => Res(x, Fail(DecodeError))
      case Overlong => Res(x, Crash)
      case Got(h, payload) => ReceiveWhole(x, prov, lane, global, h, payload)
  }

  /// A channel unknown to the registration stage, once the peer's last registration has arrived,
  /// shows that the peer is in transfer already.
  function Speculate(x: Endpoint, chan: nat): Endpoint {
    if x.state.Registration? && x.state.receivedLast && x.rx.notLocal.GlobalId(Reg, chan).None? then EnterTransfer(x)
    else x
  }

  function Receive(x: Endpoint, prov: Provider, datagram: Bytes): Res {
    match DecodePrimary(datagram)
    case Short => Res(x, Fail(DecodeError))
    case Overlong => Res(x, Crash)
    case Got(primary, body) =>
      var y := Speculate(x, primary.chan);
      var stage := StageOf(y.state);
      match y.rx.notLocal.GlobalId(stage, primary.chan)
      case None => Res(y, Fail(UnknownChannel))
      case Some(global) =>
        match ChannelOf(stage, primary.chan, global, prov)
        case None => Res(y, Fail(UnknownChannel))
        case Some(ch) => ReceiveBody(y, prov, Lane(stage, primary.chan), global, ch, primary.segmented, body)
  }

  // ---- The clock ----

  function Resend(tx: Tx, delta: nat): Tx {
    tx.(resender := tx.resender.Update(delta), wire := tx.wire + tx.resender.Resent(delta))
  }

  /// Resends what is due, then flushes the acknowledgements. Where a clock overflows, what is resent
  /// before that is left out: it was on the wire already.
  function Tick(x: Endpoint, delta: nat): Res {
    var tx := Resend(x.tx, delta);
    if x.tx.resender.Overflows(delta) then Res(x, Crash)
    else if x.local.ack == NULL_ID then Res(x.(tx := tx), Crash)
    else
      var r := Flush(tx, x.ack, StageOf(x.state), x.local.ack);
      Res(x.(tx := r.tx, ack := r.ack), r.out)
  }

  // ---- The application ----

  /// Sends a payload on a channel of the provider, if the connection has it registered.
  function AppSend(x: Endpoint, prov: Provider, global: nat, payload: Bytes): Res {
    var stage := StageOf(x.state);
    match x.local.LocalId(stage, global)
    case None => Res(x, Fail(Unregistered))
    case Some(local) =>
      match ChannelOf(stage, local, global, prov)
      case None => Res(x, Fail(Unregistered))
      case Some(ch) =>
        var r := SendPacket(x.tx, ch, Lane(stage, local), payload);
        Res(x.(tx := r.tx), r.out)
  }

  // ---- Opening ----

  /// What is announced about the `i`-th channel, and at the end. Names over the limit do not count.
  function RegistrationPayload(name: Bytes, i: nat): Bytes {
    Encode(|name|) + name + Encode(i)
  }

  const FINAL_PAYLOAD: Bytes := Encode(0) + []

  function AddedCapacity(prov: Provider, listing: seq<Entry>): nat {
    if listing == [] then 0
    else
      (match prov.ById(listing[0].global)
       case Some(ch) => if ch.reliability.Some? then ch.reliability.value.additionalCapacity else 0
       case None => 0)
      + AddedCapacity(prov, listing[1..])
  }

  /// Registers one channel locally and announces it.
  function AnnounceOne(x: Endpoint, e: Entry, i: nat): Res {
    match x.local.Insert(i, e.global, e.name)
    case None => Res(x, Crash)
    case Some(ids) =>
      var y := x.(local := ids);
      if |e.name| > MAX_NAME then Res(y, Fail(EncodeError))
      else
        var r := SendPacket(y.tx, MANAGEMENT_CHANNEL, MANAGEMENT_LANE, RegistrationPayload(e.name, i));
        if !r.out.Fine? then Res(y.(tx := r.tx), r.out)
        else
          Res(y.(tx := r.tx.(orders := r.tx.orders.Set(i, 0, 0)),
                 rx := y.rx.(buffers := y.rx.buffers[e.global := []])), Fine)
  }

  function AnnounceFrom(x: Endpoint, listing: seq<Entry>, i: nat): Res
    requires i <= |listing|
    decreases |listing| - i
  {
    if i == |listing| then Res(x, Fine)
    else
      var r := AnnounceOne(x, listing[i], i);
      if r.out.Fine? then AnnounceFrom(r.x, listing, i + 1) else r
  }

  function AnnounceEnd(x: Endpoint): Res {
    var r := SendPacket(x.tx, MANAGEMENT_CHANNEL, MANAGEMENT_LANE, FINAL_PAYLOAD);
    if !r.out.Fine? then Res(x.(tx := r.tx), r.out)
    else if r.key.None? then Res(x.(tx := r.tx), Crash)
    else
      Res(x.(tx := r.tx.(finalKey := r.key),
             state := if x.state.Registration? then x.state.(lastKey := r.key) else x.state), Fine)
  }

  function WithListing(x: Endpoint, prov: Provider, listing: seq<Entry>): Endpoint {
    x.(tx := x.tx.(listing := listing,
                   resender := x.tx.resender.(capacity := x.tx.resender.capacity + AddedCapacity(prov, listing))))
  }

  /// The capacities that the channels ask for add up to more than a `usize` holds: a panic.
  predicate TooRoomy(x: Endpoint, prov: Provider, listing: seq<Entry>) {
    x.tx.resender.capacity + AddedCapacity(prov, listing) >= USIZE
  }

  /// Numbers the provider's channels in the given order and announces them all, then the end.
  function Initialize(x: Endpoint, prov: Provider, listing: seq<Entry>): Res {
    if TooRoomy(x, prov, listing) then Res(x, Crash)
    else
      var r := AnnounceFrom(WithListing(x, prov, listing), listing, 0);
      if r.out.Fine? then AnnounceEnd(r.x) else r
  }
}
