# Verification of theta's protocol engine

theta is a reliable and ordered messaging layer over UDP. This project models its protocol engine in Dafny and proves what the engine promises: payloads arrive in order and on the right channel, packets are handled at most once, an acknowledgement releases only what the peer has really accepted, the two sides agree on the numbering of their channels, and the data structures underneath behave like the simple values they stand for.

Run `dafny verify dfyconfig.toml` in this directory.

## How the model is built

**Data structures.** Each stateful structure of the program is a class with the program's fields, and each of its methods is proved against a function on a value.

| module | what it models |
|---|---|
| `VarInt`, `SlotKeys`, `Strings`, `Framing` | the wire codec: integers bit by bit, slot keys, names, headers, segments |
| `SlotMaps` | the generational arena, as a finite map keyed by index and generation |
| `Ordering` | the reordering ring buffer, as a window of waiting packets |
| `Resend` | timers and attempt budgets over the arena |
| `Joining` | reassembly of segmented messages |
| `Channels` | channels, providers and the tables that number channels per connection |

**The connection.** `Connections.Connection` is the connection object with its fields, loops and error paths. Every method is proved to do to those fields what the function of the same name in `Endpoints` does to a value. A panic of the program is the outcome `Crash`. The model is the program built with overflow checks, as the development profile builds it: `+=` and shifts panic where they overflow, and what the source writes as `wrapping_add` starts over.

**The protocol.** `Systems` is a transition system of two endpoints. A step opens one side, lets one datagram arrive, lets the clock of one side tick, or sends a payload of one application. The network is the growing list of datagrams that a side ever put on the wire: any of them may arrive any number of times, at any later time, in any order, or never. Each endpoint has one incarnation. An endpoint value also carries history (packets sent, payloads submitted, keys accepted and noted, orders pushed), which no operation reads. A side that has panicked takes no further step.

The proof of the invariant follows the program: `Sending`, `Acknowledging`, `Registering`, `Delivering`, `Arriving` and `Opening` show that each operation keeps `Invariants`, `Counting` that 32-bit counters never run ahead of the history, and `Systems.RunSound` that the invariant holds in every reachable state. The results are in `Guarantees` and `Protocol` (what holds of every run), `Turns`, `Panics`, `Progress`, `Arrivals` and `Enrolling` (what a step does, to the last detail), `Settling` (a second invariant over runs: on reliable channels exactly the packets noted for acknowledgement have been dealt with), `Exactness` and `Losses` (what that means for the applications), `Conserving`, `Budgets` and `Capacities` (acknowledgements, resends and room in the resender, counted over a whole run). `Possibility`, `FirstRuns` and `Speculating` show that the protocol works at all, and `Endings` that the panics happen.

## What is proved of every run

With providers that are well formed and agree, name by name, on which channels are ordered and reliable, and while no 32-bit counter that wraps (a channel's order, the segment keys, an index of the arena) has started over; `Guarantees.FewUnwrapped` shows that none has while neither side has sent 2^32 packets or messages, or 2^32 payloads on one channel:

- **Ordered delivery.** What the receiver is given on an ordered channel is a prefix of what the peer's application asked to send on the channel of that name, if those payloads go out in one packet each.
- **Exactly once.** On a reliable, unordered channel, what the sender knows to be acknowledged is contained, with multiplicity, in what the other application was given, and that in what was asked to be sent. On a reliable, ordered channel an acknowledged payload stands in the other inbox at its own place or waits for its turn, unless the orderer was lost. Both hold if the payloads go out in one packet each.
- **Lost for good.** A reliable packet that arrives when its acknowledgement can neither be buffered nor flushed is marked as a duplicate all the same (`Losses.LossExactly` says exactly when). From then on it is never noted and never acknowledged. On an ordered channel its order never reaches the orderer and nothing from its place on is ever delivered; on an unordered one its payload stays missing. A send that a full resender refuses on a reliable, ordered channel uses up its order, with the same end.
- **Acknowledgements conserved.** The keys noted in the current stage are, in order, those in the acknowledgement packets sent in it followed by those still buffered; what registration leaves in the buffer is dropped when the stage changes.
- **The budget on the wire.** The datagram of a keyed packet goes out at most 1 + attempts times, the attempts it has left counted in.
- **Delivery in the step.** What the arrival of a payload's datagram achieves is stated exactly, in every case, and nothing delivered is ever taken back.
- **Every other datagram.** An accepted announcement enters exactly the announcements that now stand without a gap, if the receiver knows all names, and the last one may end the stage. A packet of another stage, a duplicate, or one that cannot be acknowledged does nothing beyond what is stated. An accepted acknowledgement releases exactly the packets it lists, in either stage. An accepted segment is refused if it came before and kept otherwise, and the last missing one delivers the message as its second header strip leaves it, so unchanged on a channel without headers.
- **Speculation.** A packet of the transfer stage brings a side that has the peer's last registration into transfer with a clean slate, and its payload is delivered if it is in its turn. Some run goes that way with no acknowledgement from the peer at all (`Speculating.SpeculationHappens`).
- **Room.** An open side's resender has exactly the room that all channels ask for together, and never holds more packets.
- **Routing by name.** A payload in the buffer for a name was given to the peer for that name, even if the providers number their channels differently. A message in segments may come as the second header strip left it.
- **Registration agreement.** An endpoint in the transfer stage holds the peer's complete table of channels, name by name, and the same two system channels.
- **The handshake.** Once one side is in transfer, by acknowledgement or by speculation, each side has received the end of the other's registration.
- **Acknowledgements** release only packets that the peer has accepted, and a key belongs to one packet for ever.
- **At most once.** No key passes the duplicate check twice, although that set is cleared between the stages.
- **Orders** reach the orderer of a reliable channel, and that of the announcements, once each, so the overwriting branch is dead there and a refusal always means a gap that is too large. On an ordered channel that is not reliable both fail, and the lemmas say how.
- **The wire.** Every datagram is the frame of one packet and at most 2000 bytes long.
- **Panics**, if and only if: opening finds that the channels' additional capacities add up to more than a `usize`; a tick overflows the timer of a stored packet; a packet is to be stored in a slot of the resender whose generation is at its maximum; an application sends a message of more than 2^16 segments; a packet that can be accepted has an order and its channel's orderer is gone or cannot grow so far; or the last missing segment of a message can be accepted and the second header strip panics or finds such an order. An orderer is lost exactly when an accepted packet's order is refused.
- **It works, and it panics.** From the start, for any two providers with the same channel names within the limits of names and capacities, some run opens both sides, brings both to transfer and delivers a first payload on the chosen channel (`FirstRuns.FirstDelivery`). On every ordered channel that is not reliable that one payload, repeated twice, ends the receiver (`Endings.ReplaysHappen`); so does, on every channel with headers, a first message of two segments that starts with six bytes over 127 (`Endings.SegmentsHappen`). Two ticks overflow a timer (`Endings.ClockHappens`), and one channel that asks for enough overflows the capacity (`Endings.OpeningHappens`).

## Where the code and its comments differ

The model follows the code.

- `ConnectionIdMapperInner::insert` (src/net/connection.rs:217-250) promises to shift ids and to move a repeated channel. It does neither for the reverse table. `Channels.InsertKeepsInverseExactly` says exactly when the result is consistent.
- `handle_message` strips order and key from each segment before joining (src/net/connection.rs:664-667) and again afterwards (src/net/connection.rs:669-678). `Framing.RejoinExactlyPlain` says exactly when a message survives this.
- `PacketOrderer::push` (src/net/ordering.rs:47-51) logs that it ignores a duplicate order but overwrites the packet. `Protocol.OrdersPushedOnce` and `Protocol.AnnouncementsPushedOnce` show that this does not happen on reliable, ordered channels in transfer, with payloads of one packet each, and to the announcements. On ordered channels that are not reliable it does: `Progress.UnreliableOrdersRepeat`.
- The reserved ids of the registration stage are 2^31 - 1 and 2^31 - 2 (src/net/connection.rs:1133-1135). The comments give other numbers (src/net/connection.rs:1069-1074).
- An empty channel name does not by itself end the registration stage (src/net/connection.rs:1072); the endpoint's own last packet must be acknowledged too, or be known to have arrived (src/net/connection.rs:136-150, 572-602).
- The joiner is built with capacity 0 (src/net/connection.rs:538), so its log of a removed segment (src/net/segment.rs:77-80) never comes with a removal.

## Model

| member | source | states |
|---|---|---|
| VarInt.RoundTrip | src/proto/decode.rs:47-61 | for every width and value, decoding the encoding followed by anything returns the value and leaves exactly what followed |
| VarInt.EncodeShortest | src/proto/encode.rs:36-52 | no byte string that decodes to a value is shorter than its encoding, and a decode consumes a front of its input |
| VarInt.EncodeLength | src/proto/encode.rs:36-52 | n bytes suffice exactly for values of at most 7n bits |
| VarInt.DecodedFits | src/proto/decode.rs:47-61 | whatever is decoded fits the width, for any input |
| VarInt.DecodeFails | src/proto/decode.rs:47-61 | a number cannot be read if and only if the input ends while every byte asks for another one, an error, or so many bytes do that the next one would be shifted out of the width, a panic |
| VarInt.SignedRoundTrip | src/proto/decode.rs:64-73 | signed values survive the cast to unsigned, the wire and the cast back |
| VarInt.EncodeInto | src/proto/encode.rs:36-52 | the encoder's loop appends exactly the encoding to its buffer |
| VarInt.DecodeFront | src/proto/decode.rs:47-61 | the decoder's loop over bytes, masks and shifts computes the decoding, error cases included |
| Strings.StrRoundTrip | src/proto/decode.rs:78-87 | a name within the limit is read back from the wire and leaves what follows |
| SlotKeys.KeyRoundTrip | src/util/slot_map.rs:41-54 | a slot key is read back from the wire and leaves what follows |
| SlotKeys.KeysRoundTrip | src/net/connection.rs:693-713 | the decoding loop of an acknowledgement reads back any list of keys, to the last byte |
| Framing.FrameRoundTrip | src/net/connection.rs:406-452 | for every kind of channel, a receiver reads each field of a framed packet and is left with its payload |
| Framing.FrameSize | src/net/connection.rs:1094-1106 | no combination of fields exceeds the datagram limit |
| Framing.PrimaryRoundTrip | src/net/connection.rs:1165-1183 | channel number and segment bit survive the primary header |
| Framing.SegmentRoundTrip | src/net/segment.rs:28-48 | segment metadata survive the wire, the count being sent as one less |
| Framing.ChunksFlat | src/net/connection.rs:454-473 | the segments of a payload put together are the payload |
| Framing.ChunkAt | src/net/connection.rs:454-473 | every segment but the last is full, so the i-th one is that part of the payload |
| Framing.JoinParts | src/net/connection.rs:669-682 | the loop over a complete list of segments computes the second strip, with its error cases |
| Framing.RejoinStrips | src/net/connection.rs:669-682 | the second strip takes off every segment what reads as a header of the channel, loses a later segment too short for one, and keeps the order of the first |
| Framing.RejoinFails | src/net/connection.rs:669-682 | it fails if and only if the first segment is too short for a header, an error, or it or after a readable one any later segment starts with a number without end, a panic |
| Framing.RejoinExactlyPlain | src/net/connection.rs:664-678 | a segmented message comes out of the second stripping unchanged if and only if its channel is neither ordered nor reliable |
| SlotMaps.PutRefines | src/util/slot_map.rs:86-111 | an insertion adds one entry under a key the map does not have and keeps the free list exact |
| SlotMaps.GetRefines | src/util/slot_map.rs:70-76 | a lookup is the lookup in the map |
| SlotMaps.RemoveRefines | src/util/slot_map.rs:113-125 | a removal takes exactly that key out of the map and keeps the free list exact |
| SlotMaps.RetainRefines | src/util/slot_map.rs:135-144 | filtering keeps exactly the entries that the callback keeps, as the callback leaves them |
| SlotMaps.ClearRefines | src/util/slot_map.rs:150-153 | clearing empties the map, and no key finds anything afterwards |
| SlotMaps.LenRefines | src/util/slot_map.rs:66-68 | the difference of two lengths is the number of entries |
| SlotMaps.StaleKeyFindsNothing | src/util/slot_map.rs:70-125 | a removed, cleared or superseded key finds and removes nothing |
| SlotMaps.PutFreshness | src/util/slot_map.rs:86-111 | the key for the next insertion was issued before if and only if the slot's generation is at its maximum, where the insertion panics |
| SlotMaps.LifetimeFreshness | src/util/slot_map.rs:86-153 | over any sequence of insertions, removals, filterings and clears, up to a panic, all keys issued are different |
| SlotMaps.SlotMap.constructor | src/util/slot_map.rs:57-64 | a new arena is empty |
| SlotMaps.SlotMap.Len | src/util/slot_map.rs:66-68 | the number of entries of the map |
| SlotMaps.SlotMap.Get | src/util/slot_map.rs:70-76 | the entry of the map under the key, if any |
| SlotMaps.SlotMap.Add | src/util/slot_map.rs:86-111 | the map gains the value, which may depend on its new key, and nothing else changes; it panics exactly when the slot's generation overflows |
| SlotMaps.SlotMap.Remove | src/util/slot_map.rs:113-125 | the entry is handed back and exactly it leaves the map |
| SlotMaps.SlotMap.RetainIf | src/util/slot_map.rs:135-144 | one pass over the slots filters and updates the entries and calls back in slot order, up to the first value on which the callback panics |
| SlotMaps.SlotMap.Clear | src/util/slot_map.rs:150-153 | the map is empty and the generations stay |
| Ordering.PacketOrderer.constructor | src/net/ordering.rs:17-25 | an empty window at order 0, for every capacity |
| Ordering.PacketOrderer.Flatten | src/net/ordering.rs:57-69 | the ring starts at index 0 and means the same as before |
| Ordering.PacketOrderer.Push | src/net/ordering.rs:27-55 | within the window a push is a map update, outside it nothing changes, the ring stays within its capacity, and it panics only where no vector can grow so far |
| Ordering.PacketOrderer.Retain | src/net/ordering.rs:71-78 | on the ring the loop delivers what draining the window delivers, even when the ring is full and wraps |
| Ordering.DrainDelivers | src/net/ordering.rs:71-78 | draining delivers the maximal contiguous run in order and stops at the gap, or at the first refusal, when exactly that packet is lost besides |
| Resend.Budget | src/net/resend.rs:52-66 | over any updates an unacknowledged packet lives for max(1, attempts) expiries, resends made and attempts left add up, and its clock stays below the interval, up to an update that overflows it |
| Resend.UpdatesBudget | src/net/resend.rs:52-66 | over any updates of which none panics, each packet of a resender lives exactly the life of its own timer and budget |
| Resend.ResentExactly | src/net/resend.rs:52-66 | an update sends again exactly the packets whose timers expire while they have attempts left |
| Resend.PacketResender.Add | src/net/resend.rs:41-50 | a full resender refuses and is unchanged; otherwise the packet is stored under a new key, or the slot has none left, a panic |
| Resend.PacketResender.Update | src/net/resend.rs:52-66 | every packet's timer moves on, and what is due is sent; a panic exactly when some timer overflows |
| Resend.PacketResender.Remove | src/net/resend.rs:68-70 | exactly the packet with this key is handed back and dropped |
| Joining.JoinCounts | src/net/segment.rs:104-127 | the count of holes stays exact, so a list is handed out only when it is complete |
| Joining.JoinExactly | src/net/segment.rs:74-127 | a segment whose place is filled or whose count differs is refused and changes nothing; any other is filed, and the entry goes with the last hole |
| Joining.Reassembly | src/net/segment.rs:74-127 | whatever arrives, in any order, with repeats and among other messages: a segment of the payload that came before is refused, the others are kept, and at the last missing one the list is handed back and is the payload |
| Joining.PacketSegmentJoiner.PopFirst | src/net/segment.rs:60-64 | some entry leaves, if there is one |
| Joining.PacketSegmentJoiner.Add | src/net/segment.rs:66-127 | a segment is filed as the value-level joiner files it; a full joiner refuses or evicts one entry, an empty one evicts nothing |
| Channels.AddKeepsWellFormed | src/net/connection.rs:99-104 | adding a channel under a new, non-empty name keeps a provider fit for the protocol |
| Channels.DefaultWellFormed | src/net/connection.rs:83-97 | a new provider is fit for the protocol |
| Channels.InsertKeepsInverseExactly | src/net/connection.rs:217-263 | an insertion leaves the two tables mutually inverse if and only if it appends a channel that is new |
| Channels.AppendedShape | src/net/connection.rs:223-263 | appending distinct channels gives mutually inverse tables with the two system ids in place |
| Channels.IdMapper.Insert | src/net/connection.rs:223-263 | the tables in place change as the value-level tables do, or not at all |
| Channels.LookupsExactly | src/net/connection.rs:177-215 | once distinct channels are numbered, each lookup in a stage finds exactly the channel's place in the listing, or in registration its reserved number, and so the two undo each other |
| Channels.SortedListing | src/net/connection.rs:902-903 | a stable sort of all channels by falling frequency is a listing: every channel once, none after one of lower frequency |
| Conserving.AcksConserved | src/net/connection.rs:306-380 | over all runs the keys noted in the current stage are those in the acknowledgement packets sent in it followed by those buffered, in order; of those noted in registration the ones sent are the first |
| Acknowledging.ResendGood | src/net/connection.rs:861-865 | a resend repeats datagrams that were on the wire already and keeps the sender's invariant |
| Sending.SendPacketGood | src/net/connection.rs:387-477 | sending a message of any size keeps packets, keys, orders, slots and datagrams in agreement |
| Receiving.DupIsEnough | src/net/connection.rs:633-643 | the duplicate set of the current stage detects every key ever accepted that can come again in it |
| Receiving.AckLocallyGood | src/net/connection.rs:692-713 | a list of keys accepted by the peer releases packets without breaking the invariant |
| Registering.RegisterGood | src/net/connection.rs:731-801 | the next announcement in turn extends the table by exactly the peer's next channel, or ends the registration, and does not panic |
| Delivering.AcceptGood | src/net/connection.rs:633-655 | a keyed packet is accepted only if its key was never accepted before, and is then noted for acknowledgement |
| Delivering.DrainGood | src/net/connection.rs:830-836 | handing out the contiguous front keeps the invariant after every packet |
| Arriving.SpeculateGood | src/net/connection.rs:566-602 | the receiver enters transfer exactly if it is in registration, the peer's last registration has arrived and the packet is of the transfer stage, and the peer is then in transfer indeed |
| Arriving.ReceiveGood | src/net/connection.rs:545-848 | any datagram that the peer ever sent, at any time, keeps the receiver's invariant |
| Opening.InitializeGood | src/net/connection.rs:879-980 | opening establishes the invariant, and whatever a failed opening has announced is true |
| Capacities.OpeningExactly | src/net/connection.rs:907-912 | opening makes exactly the room that the channels of the provider ask for together, whatever their order, and panics if and only if that does not fit |
| Capacities.OpeningSucceeds | src/net/connection.rs:905-980 | opening succeeds if and only if every name is within its limit and the resender has room for one packet per channel and one for the end |
| Capacities.RunCapacity | src/net/resend.rs:41-50 | over all runs an open side's resender keeps exactly that room and never holds more packets |
| Counting.ReceiveReacts | src/net/connection.rs:545-848 | handling a datagram takes nothing back from a buffer, never leaves transfer, submits only acknowledgements and keeps counters within the history |
| Connections.Connection.constructor | src/net/connection.rs:510-543 | a new connection stands for a new endpoint |
| Connections.Connection.SendReal | src/net/connection.rs:406-452 | one datagram built field by field, stored in the resender if the channel is reliable, and sent |
| Connections.Connection.SendPacket | src/net/connection.rs:387-477 | the order is used up, then one packet or all segments are sent, up to the first failure |
| Connections.Connection.Flush | src/net/connection.rs:307-348 | the buffered keys are sent, even none, and a failure leaves them in place |
| Connections.Connection.Acknowledge | src/net/connection.rs:350-380 | a key that would overflow the packet is taken out, the earlier keys are flushed, and it is put back |
| Connections.Connection.AcknowledgeLocally | src/net/connection.rs:692-713 | the loop releases every listed key and clears the last registration key when it is listed |
| Connections.Connection.ConvertToTransferIfPossible | src/net/connection.rs:137-150 | both conditions met, the stage changes and acknowledgements, duplicate set and resender are cleared |
| Connections.Connection.Register | src/net/connection.rs:731-801 | a name and id enter the table and get an orderer if ordered, the empty name ends the registration, errors change nothing |
| Connections.Connection.HandleOne | src/net/connection.rs:715-821 | what one message does in each stage on each kind of channel |
| Connections.Connection.Retain | src/net/connection.rs:830-836 | the orderer's loop with a callback that changes the connection does what draining its window does |
| Connections.Connection.Deliver | src/net/connection.rs:823-841 | the orderer is taken out, filled, drained and put back, and lost on an error |
| Connections.Connection.Accept | src/net/connection.rs:633-655 | the duplicate check and the acknowledgement |
| Connections.Connection.ReceiveSegment | src/net/connection.rs:659-687 | a segment is accepted, joined, and on completion delivered after the second stripping |
| Connections.Connection.Speculate | src/net/connection.rs:566-602 | the stage changes, with the cleanup, exactly when the peer's end has arrived and the channel is unknown to the registration stage |
| Connections.Connection.HandleMessage | src/net/connection.rs:545-848 | one datagram from decoding to delivery, every error path included |
| Connections.Connection.Update | src/net/connection.rs:851-877 | what is due is resent, then the acknowledgements are flushed; an overflowing timer panics |
| Connections.Connection.Send | src/net/udp.rs:312-358 | a payload of the application goes out on the connection's own number for the channel |
| Connections.Connection.Initialize | src/net/connection.rs:879-980 | all channels are sorted by frequency, numbered and announced in that order, then the end, whose key is remembered; capacities that overflow panic |
| Systems.RunSound | src/net/connection.rs:545-980 | while no wrapping counter has started over, the invariant of both endpoints and both directions holds in every reachable state; and a counter starts over only after 2^32 packets, messages or payloads |
| Guarantees.OutboxIsAsked | src/net/udp.rs:312-358 | what is submitted on a channel is what the application asked to send in transfer, in order, and nothing else |
| Guarantees.OrderedPrefixDelivery | src/net/connection.rs:397-452 | what is delivered on an ordered channel is always a prefix of what the peer submitted on it, in the order of its counter |
| Guarantees.RoutedByName | src/net/connection.rs:604-610 | every payload delivered on any channel was submitted on the channel of the same name, whatever the two numberings, or is what the second header strip makes of a long message that was |
| Guarantees.SentUnchanged | src/net/connection.rs:664-678 | on a channel without headers, or where every payload fits one packet, such a payload is one that was submitted, unchanged |
| Guarantees.FewUnwrapped | src/net/connection.rs:387-477 | no counter has started over while neither side has sent 2^32 packets or messages, or 2^32 payloads on one channel |
| Guarantees.DeliveredAsAsked | src/net/connection.rs:823-841 | from application to application: what is delivered on an ordered channel is a prefix of what the other application asked to send on it |
| Guarantees.RoutedAsAsked | src/net/connection.rs:813-816 | from application to application: every payload delivered on any channel was asked to be sent on the channel of that name, or is what the second header strip makes of a long message that was |
| Guarantees.DeliveredStays | src/net/connection.rs:813-816 | what was delivered stays delivered in order, and transfer is never left |
| Protocol.RegistrationAgreement | src/net/connection.rs:737-801 | in transfer the receiver's table is the peer's own, name by name and id by id, with both system channels |
| Protocol.HandshakeSafe | src/net/connection.rs:566-602 | when one side is in transfer, each side has accepted the last registration packet of the other |
| Protocol.AcknowledgementSoundness | src/net/connection.rs:693-713 | a released key belongs to exactly one packet, and the peer has accepted that packet |
| Protocol.AtMostOnce | src/net/connection.rs:633-655 | no key is accepted twice in the life of a connection |
| Protocol.WireSound | src/net/connection.rs:406-475 | each datagram is within the limit, reads as the packet it frames, and shares its key with no other bytes |
| Protocol.OrdersPushedOnce | src/net/ordering.rs:32-52 | on a reliable, ordered channel in transfer, a packet that passes the duplicate check has an order not pushed before, at or after the front, in an empty slot, and is refused only for lying too far ahead |
| Protocol.AnnouncementsPushedOnce | src/net/ordering.rs:32-52 | the same of every announcement in the registration stage, without any condition |
| Progress.SentWhole | src/net/connection.rs:406-452 | a payload that fits goes out in one packet with the channel's next order, and on a reliable channel stays in the resender under a new key with the channel's attempts |
| Progress.SentInSegments | src/net/connection.rs:454-473 | a long message goes out as its segments in order, one packet each, numbered under one key and one order: all of them, or those before the first for which the resender is full or its slot has no key left |
| Progress.TickResends | src/net/connection.rs:861-865 | a tick that overflows no timer puts every packet that is due on the wire again |
| Progress.TickFlushes | src/net/connection.rs:867-875 | a tick sends the acknowledgements gathered and empties the buffer |
| Turns.AcceptExactly | src/net/connection.rs:633-655 | a packet passes the duplicate check if and only if its key is new to the set and can be buffered, or flushing to make room finds room and a key in the resender; and it panics there if and only if that flush finds room and no key |
| Turns.OrderedExactly | src/net/connection.rs:823-841 | what a message on an ordered channel does in transfer, in every case: a lost orderer panics, a refusal loses it, otherwise exactly the run of consecutive orders at the front is delivered |
| Progress.DeliveryStep | src/net/connection.rs:604-841 | over all runs, the arrival of a payload that can be accepted delivers exactly it, or on an ordered channel exactly the run at the front, or loses the orderer, or finds it lost and panics; one that cannot be accepted changes nothing of these |
| Progress.RefusesExactly | src/net/ordering.rs:32-36 | an order is refused if and only if it has gone by or lies at least the capacity ahead |
| Progress.OrdererLostExactly | src/net/connection.rs:830-836 | an arrival loses the orderer of its channel if and only if the packet can be accepted and its order is refused, or no vector can hold it |
| Progress.UnreliableOrdersRepeat | src/net/ordering.rs:47-51 | on an ordered channel that is not reliable two arrivals of one datagram push its order twice |
| Progress.ReplayPanics | src/net/connection.rs:823-836 | there, a datagram whose turn has gone by loses the orderer, and the next datagram of the channel panics |
| Progress.TwoReplaysPanic | src/net/connection.rs:823-836 | every run in which a datagram of such a channel has had its turn can be continued, by two more arrivals of it, to a panic |
| Progress.AckReleases | src/net/connection.rs:692-713 | reading an acknowledgement takes exactly the packets it lists out of the resender, records those that were stored, and clears the last registration's key if it is listed |
| Arrivals.AcknowledgementStep | src/net/connection.rs:692-727 | over all runs, an acknowledgement that arrives and is accepted releases exactly the packets it lists that are stored, in either stage, and in registration may complete the handshake with its cleanup |
| Enrolling.AnnouncementStep | src/net/connection.rs:731-841 | over all runs, if the receiver knows all names of its peer, an announcement that is accepted enters exactly those that now stand without a gap, and the end, once it is among them, takes the receiver to transfer or leaves it waiting for its own last acknowledgement; a refusal loses the orderer, and a lost one panics |
| Arrivals.SpeculationStep | src/net/connection.rs:566-602 | over all runs, a packet of the transfer stage brings a side that has the peer's last registration into transfer, with nothing of registration left among duplicates, stored packets and acknowledgements, and a payload in its turn is delivered |
| Arrivals.SegmentStep | src/net/connection.rs:655-687 | over all runs, an accepted segment is refused if it came before, kept otherwise, and the last missing one delivers the joined message as one that came whole |
| Arrivals.LongMessageStep | src/net/connection.rs:655-687 | over all runs, on a channel without headers the last missing segment delivers the message that was submitted |
| Arrivals.RefusedStep | src/net/connection.rs:604-655 | over all runs, a packet of another stage or a duplicate changes nothing, and one that cannot be acknowledged is only marked |
| Arrivals.RefusedArrives | src/net/connection.rs:633-655 | a packet that is not accepted does nothing beyond the duplicate check, and its error says which of the two it was |
| Arrivals.UnreadableArrives | src/net/connection.rs:545-565 | a datagram of anybody whose first number ends too early is an error and changes nothing; one that goes on too long is a panic |
| Panics.AppSendExactly | src/net/connection.rs:406-475 | sending panics if and only if, in transfer, the message has more segments than a 16-bit count can tell or storing one of its packets finds room but a slot without a key left; in registration it is refused and changes nothing, and a short payload fails otherwise only for a full resender |
| Panics.TickExactly | src/net/connection.rs:851-877 | a tick panics if and only if it overflows the timer of a stored packet, or the flush after it finds a slot without a key left |
| Panics.ReceiveExactly | src/net/connection.rs:545-848 | a datagram of the peer panics if and only if acknowledging it does, or it can be accepted in the stage it is taken in and finds no orderer for its order, or is the last segment of a message whose second header strip panics or finds no orderer |
| Panics.LastSegmentPanics | src/net/connection.rs:664-678 | the last missing segment of any message that starts with six bytes over 127 panics on a channel with headers |
| Panics.PanicsExactly | src/net/connection.rs:545-980 | over all runs and for every kind of step, it panics if and only if the guard for its action holds: capacities, timers, slots, segment counts and datagrams as above |
| Settling.RunSettled | src/net/connection.rs:633-841 | over all runs, on every reliable channel with payloads of one packet each: unordered, the payloads of the noted packets are, with multiplicity, what was handled; ordered, every noted packet has reached the orderer while that is there, and every order that reached it is that of a noted packet |
| Exactness.ExactlyOnce | src/net/connection.rs:633-841 | on a reliable, unordered channel the acknowledged payloads are contained in what was delivered, and that in what was submitted, with multiplicity |
| Exactness.ExactlyOnceAsAsked | src/net/udp.rs:312-358 | the same between the two applications |
| Exactness.AcknowledgedArrived | src/net/connection.rs:693-841 | on a reliable, ordered channel an acknowledged payload stands in the other inbox at the place of its order, or waits in the orderer, unless that was lost |
| Losses.NotedExactly | src/net/connection.rs:633-655 | a new key enters the duplicate set in any case, but is noted for acknowledgement if and only if the buffer has room, or the resender has room and a key |
| Losses.LossExactly | src/net/connection.rs:633-655 | over all runs, the step in which a reliable packet first arrives marks it as a duplicate, and notes it if and only if it can be accepted |
| Losses.LostForGood | src/net/connection.rs:633-655 | over all runs, a key that was accepted and not noted is neither noted nor released in any later state |
| Losses.StalledForGood | src/net/connection.rs:633-841 | then, on a reliable, ordered channel, the packet's order never reaches the orderer, and the inbox never grows past its place |
| Losses.MissingForGood | src/net/connection.rs:633-841 | then, on a reliable, unordered channel, the packet's payload is missing from the inbox in every later state, with multiplicity |
| Losses.RefusedUses | src/net/connection.rs:397-404 | a send that a full resender refuses on a reliable, ordered channel uses up the channel's next order |
| Losses.RefusedStalls | src/net/connection.rs:397-452 | and then the other inbox never grows past that order, in any later state |
| Budgets.WireBudget | src/net/resend.rs:52-66 | over all runs a keyed packet's datagram is on the wire at most 1 + attempts times, attempts left in the resender included |
| Possibility.OpenFine | src/net/connection.rs:879-980 | opening succeeds with every announcement on the wire, if names are short and the resender has room for all |
| FirstRuns.FirstDelivery | src/net/connection.rs:545-980 | from the start, for every pair of providers with the same channels within the limits of names and capacities, some run brings both sides to transfer and delivers any first payload on any channel of the application, in either direction |
| FirstRuns.RoomyWith | src/net/connection.rs:83-104 | the default provider with any one channel of a short name and a reasonable capacity is such a provider |
| Speculating.SpeculationHappens | src/net/connection.rs:572-602 | from the start, some run brings a side to transfer though its peer never sends an acknowledgement, and delivers the payload that brought it there |
| Endings.ReplaysPossible | src/net/connection.rs:823-841 | from the start, on every ordered channel that is not reliable, some run has delivered a payload whose datagram is stale and whose orderer is there, as the panic after two replays needs |
| Endings.ReplaysHappen | src/net/connection.rs:823-836 | from the start, on every such channel, some run ends the receiver after a single payload |
| Endings.SegmentsHappen | src/net/connection.rs:664-678 | from the start, on every channel with headers, some run ends the receiver with any first message of two segments that starts with six bytes over 127 |
| Endings.ClockHappens | src/net/resend.rs:52-54 | from the start, opening, a tick of 1 ms and one of 2^32 - 1 ms overflow a timer |
| Endings.OpeningHappens | src/net/connection.rs:907-912 | a reliable channel that asks for 2^64 - 300 packets or more makes opening panic, whatever the other channels are |

## Left out

- Sockets, threads, the event loop and fake lag (src/net/udp.rs): replaced by nondeterministic arrivals and ticks.
- Connection timeouts and `last_time_received_packet`: they rest on wall-clock instants.
- Delivery in the end (liveness): the handshake can clear unacknowledged registration packets, and a refused packet loses its order, so only safety is stated, and that some runs deliver (`FirstRuns.FirstDelivery`).
- Messages on the management channel in transfer: the program has `todo!()` there; the applications of the model send on application channels only.
- `HashSlotMap`, `ManyToSingleChannel`, the swap buffer's lock, plugins, logging and the chat example: unused by the protocol or easy. A buffer of the model holds everything ever put in it.
- The order in which a hash map is walked: `IsListing` allows every order that the sort by frequency allows, and `PopFirst` removes any entry.
- UTF-8: strings are their bytes, and the check that they are text is not modelled.
- `PacketSendingError`: the UDP sender always succeeds.
- Builds without overflow checks: there a slot's generation, a timer, the sum of capacities and an overlong shift wrap instead of panicking.
- Slots of the arena beyond 2^32: no vector can hold them. Orderers of any capacity are modelled; one that would have to grow past what a vector can hold panics.
- Providers with empty or repeated names, two names for one channel, or changed system channels: `WellFormed` excludes them. An empty name would be read as the end of the registration.
- Guarantees.OrderedPrefixDelivery: does not cover payloads that need segments, because the second header strip changes them; `Framing.RejoinExactlyPlain` gives the exact condition.
- Guarantees.DeliveredAsAsked: does not cover payloads that need segments, for the same reason.
- Connections.Connection.Retain: repeats the loop of `PacketOrderer.Retain`, whose callback is a function of the state it captures and so cannot update the connection's fields.
- Systems.RunSound: says nothing of a state after an order, a segment key or an index of the arena has started over; orders and keys then repeat, and the results about runs end there.
- Exactness.ExactlyOnce: does not cover payloads that need segments, because the second header strip changes them.
- Exactness.AcknowledgedArrived: does not cover payloads that need segments, for the same reason.
- Protocol.OrdersPushedOnce: does not cover payloads that need segments: the second header strip may read any order from them.
- Losses.StalledForGood: does not cover payloads that need segments, for the same reason.
- Losses.MissingForGood: does not cover payloads that need segments, for the same reason.
- Losses.RefusedStalls: does not cover payloads that need segments, for the same reason.
- FirstRuns.FirstDelivery: shows runs for up to 195 channels on a side, the two system channels included; with more, the acknowledgements of the registration do not fit in one packet. The runs of `Endings` that start with it share the bound.
- Enrolling.AnnouncementStep: is stated for receivers that know every name of their peer; an unknown name stops the registration there for good, which only `Registering.RegisterGood` covers.
