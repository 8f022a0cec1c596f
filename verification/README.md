# A verified model of renet2

renet2 is a networking library for games: a protocol with reliable and unreliable channels (`renet2`),
a connection layer after the netcode standard (`renetcode2`), and server sockets over WebSocket and
WebTransport (`renet2_netcode`). This project models their core in Dafny and proves what they are
there to promise.

`dafny verify dfyconfig.toml` checks everything.

## What is modelled

Each stateful part comes twice: as plain values with functions on them (`ReliableSending`,
`ReliableReceiving`, `Endpoints`, `NetcodeTable`, `SocketTables`, ...), about which the theorems are
proved, and as a class that updates fields, maps and arrays in loops as the Rust code does, each of
whose methods is proved to have the effect of the function.

- **Reliable channels.** `Slices.dfy` cuts messages up and puts them together again;
  `ReliableSend.dfy`, `SendPass.dfy`, `Greedy.dfy` and `SendChannel.dfy` are the sender,
  `ReliableReceive.dfy` is the receiver. `Resends.dfy` says when messages go out again, `Rounds.dfy` how
  slices take turns.
- **Connections.** `AckRanges.dfy` is the list of packets to ack, `Varint.dfy`, `Wire.dfy` and
  `PacketSizes.dfy` the wire format, with packets byte for byte in `WireExamples.dfy` and packets cut
  short in `Truncation.dfy`, `Stats.dfy` the loss statistics, `Endpoint.dfy` one end of a connection
  as a value and `Client.dfy` as the object `RenetClient`.
- **Unreliable channels.** `UnreliableSend.dfy` and `UnreliableReceive.dfy`; `Turns.dfy` is what a
  connection does with them, and the turns all channels take when packets are made. `Ordering.dfy` is
  the order they keep on an ordered substrate, `Gathering.dfy` how slices come together over time.
- **The protocol.** `Connections.dfy` joins two endpoints by a network that drops, duplicates, delays
  and reorders packets: every step delivers any packet that was ever sent, or none. Packets of
  reliable and unreliable channels and acks travel together. Its theorems hold in every state of
  every run, in both directions. They rest on what every action keeps between the reliable channels
  of two ends (`Protocol.dfy`) and between the unreliable ones (`Connections.dfy`). `Progress.dfy` shows
  that a sender drains, and `Delivery.dfy` that a reliable channel delivers in runs of both ends.
  `Acceptance.dfy` says which messages are accepted and taken in, `Acknowledging.dfy` which packets
  are acked.
- **The netcode layer.** `Replay.dfy` is the replay window, `Framing.dfy` the packet frames,
  `NetcodeServer.dfy` the connection table of a server; `NetcodeRuns.dfy` says what the times and
  numbers in it stand for over runs.
- **Sockets.** `Sockets.dfy` is the bookkeeping of the WebSocket and WebTransport servers, with the
  connection handlers as independent steps; `SocketRuns.dfy` and `SocketSends.dfy` follow messages and
  connections over runs.

Times are in nanoseconds. Bytes are numbers below 256. Sequences, ids and counters are natural
numbers; where a width matters it is written out (varints hold 62 bits, the replay check wraps at 64).
An ordered map of the source is a map walked by ascending key.

## Main results

- No accepted message is lost, and no slice that counts as acked: `Connections.NoMessageLost`,
  `Connections.NoSliceLost`.
- Ordered channels deliver a prefix of what was sent; unordered ones deliver each message at most
  once and never get stuck: `Connections.OrderedDelivery`, `Connections.UnorderedDelivery`.
- A reliable channel delivers: whatever else the network does, as many passes that are acked within
  3 s as there are units outstanding leave nothing stored, and then everything is with the other end:
  `Delivery.RoundShrinks`, `Delivery.Delivers`, `Connections.DrainedIsThere`.
- Such passes come by waiting: once the resend time has passed without packets being made everything
  outstanding is due, and nothing goes out twice within it: `ResendRuns.WaitingStarts`,
  `ResendRuns.NotTwiceTooSoon`.
- A message is accepted exactly when there is room for it, and a drained channel hands over one more
  message with each call until all are: `Acceptance.SendExactly`, `Acceptance.RestHandedOver`.
- A packet that is taken in is named by the next ack packet, except in two cases that are spelled out:
  `Acknowledging.ArrivalIsAcked`.
- What an unreliable channel delivers is, byte for byte, a message that was sent on it, and it never
  ends the connection: `Connections.UnreliableDelivery`, `Connections.UnreliableLasts`. The slices of
  a long message make it whole among whatever else arrives, if no 3 s pass without one:
  `Gathering.Completes`.
- No panic of any channel is reachable from packets of the other end: `Connections.NoPanicOnDelivery`.
- One pass sends exactly what a greedy walk over the queue of due units picks, slices take turns, and
  loss-free rounds empty a channel: `ReliableSendChannel.SendChannelReliable.GetPacketsToSend`,
  `SliceRounds.WaitingComesFirst`, `Progress.Drains`.
- Every packet that is built is read back as it was and fits the buffer, and cut short it is refused:
  `PacketSizes.ReadBack`, `PacketSizes.BuiltSize`, `Wire.RoundTrip`, `Truncation.CutShort`.
- On an ordered substrate an unreliable channel is first in, first out from end to end, as long as
  its passes keep the order, and always with the pass repaired: `UnreliableOrder.Fifo`.
- The packet loss reported is exactly the share of settled packets that were never acked:
  `LossStats.LossExact`, `RenetConnection.RenetClient.PacketLoss`.
- The replay window agrees with the set of all sequences accepted: `ReplayWindow.RunExact`.
- The connection table and the socket bookkeeping keep their invariants over every run:
  `NetcodeTable.RunInv`, `SocketTables.RunInv`.
- Whoever is connected to a netcode server had a request accepted with a token for its client id, and
  keeps its slot until it says so itself, times out or is dropped:
  `NetcodeTable.ConnectedWereAdmitted`, `NetcodeTable.SlotEndsExactly`. It is timed out exactly when
  none of its packets arrived within its limit: `NetcodeRuns.TimedOutExactly`.
- A connect token is free for another address only after 2047 other tokens were let through:
  `NetcodeRuns.TokenForgotten`.
- Socket servers hand on the messages of a connection in the order they came, give a client its first
  answer and then all packets in order, and never bring back a connection that is over:
  `SocketRuns.InOrder`, `SocketSends.SentInOrder`, `SocketRuns.DroppedIsOver`.

## Where the code does not do what one would expect

Each of these has a lemma with an example and one with the exact condition.

- The list of packets to ack is held to 64 ranges only when a range is added at its end. A sequence
  that is inserted further left makes a 65th (example `AckRanges.LimitPassed`, condition in
  `AckRanges.AddPendingAck`). Packets that arrive in falling order make it as long as one likes
  (`AckRanges.FallingArrivals`); past 698 ranges the ack packet cannot be written and the connection
  ends, up to 64 it always can (`RenetConnection.AcksDecide`).
- A small message that alone outgrows a slice, with its length and id, sends an empty packet ahead of
  it when no others wait (example `GreedyPasses.EmptyAhead`, conditions `GreedyPasses.TightMeans` and
  `UnreliableSending.PlanTight`).
- A message of more than a million slices is sent but its slices are refused by the reader (example
  `PacketSizes.TooManySlices`, condition `PacketSizes.SliceReadBack`).
- An unreliable channel on an ordered substrate keeps the order of messages exactly when no small
  message goes out before a long one and those that overflow read the same both ways (examples
  `UnreliableOrder.LongOvertakes` and `UnreliableOrder.OverflowSwaps`, condition
  `UnreliableOrder.KeepsOrderExactly`).
- Old slices of an unreliable channel are all given up exactly when none of them stands above a
  fresh one (example `UnreliableReceiving.StaleStays`, condition `UnreliableReceiving.AllStaleGivenUp`).
- On an unordered channel a late slice opens a constructor again for a message already handed over,
  which can end up below the pointer (example `ReliableReceiving.StrayRun`, condition
  `ReliableReceiving.LateSlice`).
- Two slots of a netcode server can come to share a client id: the check is on the id in the
  challenge, the id stored is the pending one (example `NetcodeTable.SharedClientId`, condition
  `NetcodeTable.AnswerUnique`). Dropping such an id then drops one of the two
  (`NetcodeTable.DisconnectGone`).
- An arrival is forgotten without ever being acked when it comes late and the ack of an earlier ack
  passes it (example `Acknowledging.LateArrivalForgotten`, condition `Acknowledging.DeliverPending`).
- Packets older than the window of 6 s still count in the loss when updates leave out the bucket they
  are in (example `LossStats.StaleLoss`, condition `LossStats.LossOfWindow`; updates at most 300 ms
  apart leave none out, `LossStats.UpdateFresh`).
- The comment on ack packets in renet2/src/packet.rs:160-175 has numbers that are one more than what is
  written; the model follows the code (`WireExamples.AckBytes`).
- The replay check wraps for the last 256 sequences (example `ReplayWindow.WrapsToRefusal`, condition
  `ReplayWindow.Exact`).
- A frame with sequence 0 and an empty body is refused as too small (example
  `NetcodeFrames.FirstDisconnectUnread`, condition `NetcodeFrames.FrameRoundTrip`).

## Model

| member | source | states |
|---|---|---|
| `SliceConstruction.SliceConstructor.ProcessSlice` | renet2/src/channel/slice_constructor.rs:25-74 | in place, the constructor does to its flags, count and buffer what `Accept` does to the values: wrong sizes are refused, duplicates ignored, the buffer resized by the last slice |
| `SliceConstruction.AcceptExactly` | renet2/src/channel/slice_constructor.rs:25-43 | a slice is accepted exactly when some message of that many slices has it there, or it is an empty last one |
| `SliceConstruction.AcceptHonest` | renet2/src/channel/slice_constructor.rs:25-74 | a slice of a message is never refused, and completes it exactly when no other slice is missing; what comes out is the message |
| `SliceConstruction.Reassembly` | renet2/src/channel/slice_constructor.rs:15-74 | for every order of arrival with any duplicates, a result comes exactly with the last missing slice and equals the message |
| `ReliableSendChannel.SendChannelReliable.constructor` | renet2/src/channel/reliable.rs:75-84 | a new channel stores nothing |
| `ReliableSendChannel.SendChannelReliable.SendMessage` | renet2/src/channel/reliable.rs:204-220 | stores the message under the next id, in slices if it is long, or refuses it for want of memory and changes nothing; which of the two is `AcceptedExactly` |
| `ReliableSending.SendMessageInv` | renet2/src/channel/reliable.rs:204-220 | memory stays the sum of the stored lengths and within the limit; what is stored is well formed |
| `ReliableSending.AcceptedExactly` | renet2/src/channel/reliable.rs:204-220 | a message is accepted exactly when its length and those of all messages stored are within the limit; it is then stored under the next id besides the others, which stay as they were |
| `ReliableSendChannel.SendChannelReliable.ProcessMessageAck` | renet2/src/channel/reliable.rs:222-230 | drops the message and gives back its memory; a sliced message is a panic and is excluded |
| `ReliableSendChannel.SendChannelReliable.ProcessSliceMessageAck` | renet2/src/channel/reliable.rs:232-259 | flags the slice once; the last one drops the message and gives back its memory |
| `ReliableSending.AckSliceEffect` | renet2/src/channel/reliable.rs:232-259 | other messages are untouched, and the message goes exactly when the ack is for its last unacked slice |
| `ReliableSending.AckSliceInv` | renet2/src/channel/reliable.rs:232-259 | the number of acked slices is the number of flags set and stays below the number of slices |
| `ReliableSendChannel.SendChannelReliable.GetPacketsToSend` | renet2/src/channel/reliable.rs:94-202 | one pass: packets are numbered in a row and carry stored messages and slices, no unit twice, timers are set for exactly what was sent, bytes sent and budget left add up, the units sent are those a greedy walk over the queue of due units picks, slices in its order and small messages in its order, and small messages share packets as `TightMeans` says; what is due is `Resending.DueExactly` |
| `ReliableSendChannel.SendChannelReliable.SendSlices` | renet2/src/channel/reliable.rs:139-189 | the round over the slices of one message from where the last one stopped, as far as the budget goes |
| `ReliableSendChannel.SendChannelReliable.PackSmall` | renet2/src/channel/reliable.rs:106-137 | a small message joins those waiting, which go out first if together they would outgrow a slice |
| `GreedyPasses.TightMeans` | renet2/src/channel/reliable.rs:120-137 | a message starts a new packet only when the one before has no room for it, and an empty packet goes out exactly ahead of a first message that alone outgrows a slice |
| `GreedyPasses.EmptyAhead` | renet2/src/channel/reliable.rs:120-137 | a message of 1200 bytes goes out behind an empty packet |
| `ReliableSendChannel.RotatedIsMod` | renet2/src/channel/reliable.rs:152-154 | the index modulo the number of slices visits each slice once in a round |
| `ReliableSendChannel.QueueIsDue` | renet2/src/channel/reliable.rs:106-189 | the queue of the greedy walk holds exactly the units that are due, which are those of `Resending.DueExactly` |
| `ReliableSendChannel.QueueInLine` | renet2/src/channel/reliable.rs:106-189 | the queue is in order: messages by age, the slices of each going round from the next one to send; with `QueueIsDue` this leaves no other queue |
| `SliceRounds.SlicesGoInLine` | renet2/src/channel/reliable.rs:139-189 | in a pass slices go out in the order of the queue |
| `SliceRounds.WaitingComesFirst` | renet2/src/channel/reliable.rs:139-189 | slices take turns: one that was due and had to wait comes before every one that went out in the next round |
| `Resending.DueExactly` | renet2/src/channel/reliable.rs:112-116 | a unit may go out exactly when it is not acked and either never went out or did so at least the resend time ago |
| `Resending.DueAfterWaiting` | renet2/src/channel/reliable.rs:112-162 | when nothing has gone out for the resend time every unit outstanding is due |
| `Resending.NotBeforeTime` | renet2/src/channel/reliable.rs:106-189 | a pass sends no unit before the resend time has passed since it last went out |
| `Resending.LeftBehind` | renet2/src/channel/reliable.rs:106-189 | a unit that is due and stays behind needs more than the budget that is left |
| `Resending.PassTimers` | renet2/src/channel/reliable.rs:112-181 | a pass notes the time for exactly the units it sends |
| `ResendRuns.WaitingMakesDue` | renet2/src/remote_connection.rs:402-711 | in every run of both ends, once the resend time has passed without packets being made everything outstanding on a channel is due, whatever arrived meanwhile |
| `ResendRuns.WaitingStarts` | renet2/src/remote_connection.rs:590-612 | in every run packets made then, with a slice's worth of budget left for the channel, start one of the rounds that deliver |
| `ResendRuns.NotTwiceTooSoon` | renet2/src/remote_connection.rs:590-711 | in every run a unit that goes out twice does so at least the resend time apart |
| `ReliableReceiveChannel.ReceiveChannelReliable.constructor` | renet2/src/channel/reliable.rs:263-279 | a new channel holds nothing |
| `ReliableReceiveChannel.ReceiveChannelReliable.ProcessMessage` | renet2/src/channel/reliable.rs:281-319 | takes a message in once, ordered or unordered, or refuses it for want of memory |
| `ReliableReceiveChannel.ReceiveChannelReliable.ProcessSlice` | renet2/src/channel/reliable.rs:321-348 | reserves memory for a new constructor, feeds the slice and takes a finished message in |
| `ReliableReceiveChannel.ReceiveChannelReliable.ReceiveMessage` | renet2/src/channel/reliable.rs:350-376 | hands over the next message in order, or the one with the least id and then moves the pointer |
| `ReliableReceiving.ProcessMessageInv` | renet2/src/channel/reliable.rs:281-319 | memory is the bytes held plus 1200 per reserved slice, within the limit; the state of the pointer is kept |
| `ReliableReceiving.TakenInExactly` | renet2/src/channel/reliable.rs:281-319 | a message is taken in exactly when it was before or fits besides what is held and reserved; nothing else counts as received for it |
| `ReliableReceiving.ProcessSliceKeeps` | renet2/src/channel/reliable.rs:321-348 | the same for slices; nothing taken in is forgotten, an accepted slice is recorded, and the memory error leaves everything as it was |
| `ReliableReceiving.FinishKeeps` | renet2/src/channel/reliable.rs:339-344 | taking a finished message in never fails: the error path after reassembly is dead |
| `ReliableReceiving.ReceiveMessageInv` | renet2/src/channel/reliable.rs:350-376 | handing over keeps the accounts and the state of the pointer |
| `ReliableReceiving.ReceiveMessageExact` | renet2/src/channel/reliable.rs:350-376 | what is handed over is new, and is next in order on an ordered channel |
| `ReliableReceiving.HandedOverExactly` | renet2/src/channel/reliable.rs:350-376 | a message is handed over exactly when the one waited for is there, or on an unordered channel any is, and it is the one with the least id |
| `ReliableReceiving.PointerMoves` | renet2/src/channel/reliable.rs:359-373 | an unordered channel with messages hands one over, and the pointer moves past it to an id not taken in when it was waiting for it |
| `ReliableReceiving.ProcessSliceMirrors` | renet2/src/channel/reliable.rs:321-348 | slices of sent messages leave only parts of sent messages, and are refused only for want of memory |
| `ReliableReceiving.LateSlice` | renet2/src/channel/reliable.rs:321-338 | a late slice of a message taken in opens a constructor exactly when the message was handed over ahead of the pointer, on an unordered channel, and there is room |
| `ReliableReceiving.StrayConstructor` | renet2/src/channel/reliable.rs:321-373 | whenever the message the pointer waits for is there and the one after it was handed over, a late slice of the latter opens a constructor that the pointer then moves past |
| `ReliableReceiving.StrayRun` | renet2/src/channel/reliable.rs:281-373 | a run from the empty channel that leaves a constructor below the pointer: message 1 comes in two slices and is handed over, message 0 comes, then a late slice of message 1 |
| `AckRanges.AddPendingAck` | renet2/src/remote_connection.rs:713-759 | insertion into the set that the ranges stand for, without the lowest range when an addition at the end passes 64; ranges stay sorted, non-empty and apart; the limit is passed exactly when a full list takes a range further left |
| `AckRanges.AckedLargest` | renet2/src/remote_connection.rs:761-785 | keeps exactly the elements above the given one, in normal form |
| `AckRanges.Canonical` | renet2/src/remote_connection.rs:713-785 | a set has only one list in normal form |
| `AckRanges.LimitPassed` | renet2/src/remote_connection.rs:743-758 | 64 ranges can become 65 |
| `AckRanges.FallingArrivals` | renet2/src/remote_connection.rs:713-759 | every second packet, arriving in falling order, adds a range without limit |
| `Varint.VarintRoundTrip` | renet2/src/packet.rs:95-115 | every 62-bit number is read back, with whatever follows it |
| `WireExamples.TypeByte` | renet2/src/packet.rs:95-158 | the first byte of a packet is 0 to 4 for its kind, and tells it |
| `WireExamples.VarintExamples` | renet2/src/packet.rs:95-115 | the numbers of section A.1 of RFC 9000 are written in one, two and four bytes as there |
| `WireExamples.LongVarintExample` | renet2/src/packet.rs:95-115 | and in eight |
| `WireExamples.SmallReliableBytes` | renet2/src/packet.rs:99-113 | a packet of two small reliable messages, byte for byte |
| `WireExamples.SmallUnreliableBytes` | renet2/src/packet.rs:114-127 | a packet of two small unreliable messages, byte for byte |
| `WireExamples.SliceBytes` | renet2/src/packet.rs:128-155 | a reliable and an unreliable slice, byte for byte |
| `WireExamples.AckBytes` | renet2/src/packet.rs:156-202 | an ack of two ranges, byte for byte |
| `WireBuffers.ToBytes` | renet2/src/packet.rs:95-206 | the loops write exactly the encoding, and fail exactly when it does not fit |
| `WireBuffers.FromBytes` | renet2/src/packet.rs:208-351 | the loops read exactly what the decoding function gives, with its errors |
| `Wire.RoundTrip` | renet2/src/packet.rs:95-351 | a packet that can be written is read back as itself exactly when its slice is within the limits of the reader |
| `Wire.RoundTripAck` | renet2/src/packet.rs:156-202 | gaps between ranges never underflow and the ranges come back |
| `Wire.DecodedAckNormal` | renet2/src/packet.rs:305-348 | every ack list the reader lets through is sorted, non-empty and apart |
| `Truncation.TrailingIgnored` | renet2/src/packet.rs:208-351 | bytes after a packet change neither the packet read nor an error in it, for all bytes |
| `Truncation.UnknownKind` | renet2/src/packet.rs:208-351 | exactly a first byte above 4 is refused as an unknown kind, for all bytes |
| `Truncation.CutShort` | renet2/src/packet.rs:208-351 | a packet cut short anywhere is refused as too short, never taken for another one |
| `Wire.AckSize` | renet2/src/packet.rs:156-202 | an ack of up to 64 ranges takes at most 1034 bytes, and every ack at least two bytes for each range |
| `PacketSizes.MessagesSize` | renet2/src/channel/reliable.rs:120-137 | the size that packing counts is the size written, so counts fit 16 bits |
| `PacketSizes.BuiltSize` | renet2/src/packet.rs:95-206 | packets of a pass can be written: small ones in 1222 bytes, slices in 1236, acks of up to 64 ranges in 1034 |
| `PacketSizes.ReadBack` | renet2/src/packet.rs:95-351 | packets of a pass decode to themselves |
| `PacketSizes.SliceReadBack` | renet2/src/packet.rs:252-256 | slices of a message decode exactly when it has at most a million of them |
| `PacketSizes.TooManySlices` | renet2/src/packet.rs:252-256 | the slices of a message of 1200000001 bytes are written and not read |
| `LossStats.ConnectionStats.constructor` | renet2/src/connection_stats.rs:17-25 | all buckets start at zero |
| `LossStats.ConnectionStats.Update` | renet2/src/connection_stats.rs:27-40 | the bucket of the new time is cleared when it changes |
| `LossStats.ConnectionStats.SentPackets` | renet2/src/connection_stats.rs:42-45 | sent packets count in the current bucket |
| `LossStats.ConnectionStats.AckedPacket` | renet2/src/connection_stats.rs:51-59 | an ack counts in the bucket of its sending, unless it is older than the window |
| `LossStats.ConnectionStats.PacketLoss` | renet2/src/connection_stats.rs:86-111 | the share of unacked packets in the settled buckets, without underflow |
| `LossStats.UpdateTallies` | renet2/src/connection_stats.rs:27-40 | clearing a bucket keeps every count exact: sent and acked packets of each bucket since it was last cleared |
| `LossStats.SendTallies` | renet2/src/connection_stats.rs:42-45 | so does sending: the new packets are in the bucket of their time |
| `LossStats.AckTallies` | renet2/src/connection_stats.rs:51-59 | so does the ack of a packet in flight: it is always counted, in the bucket the packet was sent in, which has not been cleared since |
| `LossStats.LossExact` | renet2/src/connection_stats.rs:86-111 | the loss times the number of settled packets is the number of settled packets that were never acked; with none it is 0 |
| `LossStats.LossOfWindow` | renet2/src/connection_stats.rs:27-111 | the settled packets are those of the last 6 s exactly when none of them is older |
| `LossStats.UpdateFresh` | renet2/src/connection_stats.rs:27-40 | updates at most one bucket apart keep it so |
| `LossStats.StaleLoss` | renet2/src/connection_stats.rs:27-111 | a packet sent 7.2 s ago counts as lost when updates left its bucket out |
| `LossStats.LossIsAShare` | renet2/src/connection_stats.rs:86-111 | so the loss is between 0 and 1 |
| `RenetConnection.RenetClient.constructor` | renet2/src/remote_connection.rs:190-271 | a connection over new channels is valid and new |
| `RenetConnection.RenetClient.SendMessage` | renet2/src/remote_connection.rs:402-422 | goes to the channel; a reliable message refused for want of memory ends the connection; nothing happens once it has ended |
| `RenetConnection.RenetClient.ReceiveMessage` | renet2/src/remote_connection.rs:424-438 | hands over what the channel does, reliable or not, and leaves the other channels alone; nothing once the connection has ended |
| `RenetConnection.RenetClient.Update` | renet2/src/remote_connection.rs:441-468 | time moves on, exactly the ledger entries of 3 s and more are given up, the unreliable channels give up their old slices, and the statistics stay exact |
| `RenetConnection.DiscardLost` | renet2/src/remote_connection.rs:446-464 | the scan that stops at the first young packet is the full filter, as times rise with sequences |
| `RenetConnection.RenetClient.ProcessPacket` | renet2/src/remote_connection.rs:474-584 | a packet that cannot be read ends the connection; any other has the effect of `Process` on the endpoint and of `Unreliably` on the unreliable channels |
| `RenetConnection.RenetClient.ProcessAcks` | renet2/src/remote_connection.rs:535-582 | exactly the ledger entries in the ranges are struck off, each once, in order, and each is counted as acked |
| `RenetConnection.NewAcks` | renet2/src/remote_connection.rs:536-543 | lists the sequences that are both in the ledger and in a range, ascending |
| `RenetConnection.RenetClient.AckPacket` | renet2/src/remote_connection.rs:545-580 | one entry is struck off, counted as acked in the statistics, and what it carried is acked; no panic is reached |
| `RenetConnection.RenetClient.GetPacketsToSend` | renet2/src/remote_connection.rs:590-711 | every channel in turn makes its pass with the budget the ones before it left; its packets and, last, the pending acks are numbered in a row, entered in the ledger and handed out encoded; bytes sent and budget left add up to the budget; when one cannot be written the connection ends and nothing is handed out, and only then; it lasts when at most 64 ranges are pending and the numbers fit, and ends from 699 on |
| `RenetConnection.AcksDecide` | renet2/src/remote_connection.rs:691-706 | the packets of a pass can all be written when at most 64 ranges are pending and the numbers fit, and not when 699 are |
| `RenetConnection.RenetClient.MakePackets` | renet2/src/remote_connection.rs:596-612 | the loop over the channels: each has its turn once, in order, with what the ones before it left, and changes nothing of the others |
| `RenetConnection.Serialize` | renet2/src/remote_connection.rs:691-706 | all packets are written or none is handed out |
| `RenetConnection.Record` | renet2/src/remote_connection.rs:623-689 | the ledger gains exactly one entry for each packet |
| `RenetConnection.RenetClient.PacketLoss` | renet2/src/remote_connection.rs:283-285 | the loss a connection reports, times the settled packets it sent, is the number of those that no ack packet named in time; it is between 0 and 1 |
| `RenetConnection.RenetClient.DisconnectWithReason` | renet2/src/remote_connection.rs:787-791 | only the status changes |
| `Endpoints.FlushInv` | renet2/src/remote_connection.rs:590-711 | sending keeps the endpoint invariant: every ledger entry names a channel and messages of the right form |
| `Endpoints.ProcessInv` | renet2/src/remote_connection.rs:474-584 | so does processing any packet, so the panics on bad ledger entries are unreachable |
| `Endpoints.TickInv` | renet2/src/remote_connection.rs:441-468 | so does the passing of time |
| `Endpoints.AckOneInv` | renet2/src/remote_connection.rs:557-580 | so does each ack |
| `ReliableLinks.ActKeeps` | renet2/src/remote_connection.rs:402-711 | whatever either end does, the sender's store, the ledger, the packets in the network and the receiver go on fitting together |
| `UnreliableLinks.TurnsHonest` | renet2/src/channel/unreliable.rs:58-136 | every packet the unreliable channels make carries messages that were accepted, or slices of the long message sent under that id |
| `UnreliableLinks.ArrivalKeeps` | renet2/src/channel/unreliable.rs:171-214 | such packets leave a channel holding only accepted messages and parts of the message of each id |
| `Connections.RunInv` | renet2/src/remote_connection.rs:402-711 | the invariant that joins both ends and the network, reliable and unreliable, holds in every state of every run |
| `Connections.NoMessageLost` | renet2/src/channel/reliable.rs:204-348 | in every state of every run an accepted message is stored, held as sent, or was handed over as sent |
| `Connections.NoSliceLost` | renet2/src/channel/reliable.rs:232-348 | in every state of every run the bytes of a slice flagged as acked are with the receiver, in a constructor or in the whole message |
| `Connections.OrderedDelivery` | renet2/src/channel/reliable.rs:281-358 | on an ordered channel what was handed over is at all times a prefix of what was sent |
| `Connections.UnorderedDelivery` | renet2/src/channel/reliable.rs:298-373 | on an unordered channel no message is handed over twice, all are as sent, all below the pointer were received, and the message waited for can be handed over as soon as it is in |
| `Connections.DrainedIsThere` | renet2/src/channel/reliable.rs:222-373 | in every state of every run in which a sender stores nothing, every message it accepted is held or was handed over as sent, and on an ordered channel those not handed over are next in line |
| `Connections.NoPanicOnDelivery` | renet2/src/remote_connection.rs:491-582 | a packet of the other end, of whatever kind of channel, always meets what the receiving code takes for granted |
| `Connections.UnreliableDelivery` | renet2/src/channel/unreliable.rs:171-243 | in every state of every run what an unreliable channel holds or has handed over is, byte for byte, a message accepted on it by the other end |
| `Connections.UnreliableLasts` | renet2/src/remote_connection.rs:505-533 | packets of the other end for an unreliable channel never end the connection |
| `Acceptance.SendExactly` | renet2/src/remote_connection.rs:402-422 | in every run a message sent on a reliable channel joins the log and leaves the connection up exactly when there is room for it besides those not acked yet; otherwise the connection ends and the log stays |
| `Acceptance.SliceTaken` | renet2/src/channel/reliable.rs:321-348 | a slice of a sent message is taken in exactly when the message was, has a constructor, or there is room for all its slices |
| `Acceptance.DeliveryLasts` | renet2/src/remote_connection.rs:491-533 | in every run a packet for a reliable channel leaves the connection up when there is room for what it brings; a slice, exactly then |
| `Acceptance.RestHandedOver` | renet2/src/remote_connection.rs:424-438 | in every run, once the sender stores nothing, each call hands over one more message until all accepted ones have been |
| `Acknowledging.AckOnePending` | renet2/src/remote_connection.rs:576-578 | once an ack packet is acked exactly the sequences above all that it named are left waiting |
| `Acknowledging.DeliverPending` | renet2/src/remote_connection.rs:474-584 | exactly what is waiting to be acked after a packet was taken in |
| `Acknowledging.TransmitNames` | renet2/src/remote_connection.rs:614-621 | the packets made end with one that acks all that is waiting |
| `Acknowledging.ArrivalIsAcked` | renet2/src/remote_connection.rs:474-711 | in every run a packet taken in is named by the ack of a later transmission, unless it was pushed out of the list or an ack of a later packet was acked in between |
| `Acknowledging.LateArrivalForgotten` | renet2/src/remote_connection.rs:474-584 | a run in which a packet that comes late is never acked |
| `ChannelPairs.SafeAckSlice` | renet2/src/channel/reliable.rs:232-259 | an ack of a slice that arrived loses nothing, even when it drops the message |
| `Progress.PassEmits` | renet2/src/channel/reliable.rs:94-202 | with a slice's worth of budget and everything due, a pass sends at least one outstanding unit and none twice |
| `Progress.AckOutstanding` | renet2/src/channel/reliable.rs:222-259 | acking a packet takes exactly its units off what is outstanding |
| `Progress.AckIsApply` | renet2/src/remote_connection.rs:557-575 | that ack is the effect of striking off the packet's ledger entry |
| `Progress.RoundShrinks` | renet2/src/channel/reliable.rs:94-259 | a loss-free round leaves strictly fewer units outstanding, all of them still due |
| `Progress.Drains` | renet2/src/channel/reliable.rs:94-259 | as many loss-free rounds as there are outstanding units leave the channel empty and its memory free |
| `Delivery.AckAllOpen` | renet2/src/remote_connection.rs:535-582 | striking off ledger entries only takes units off what is outstanding, all those of the packets struck off, and leaves the other entries |
| `Delivery.ActTracked` | renet2/src/remote_connection.rs:402-711 | whatever an end does, short of accepting a message on the channel, units of a pass that are outstanding stay in a packet in the ledger for 3 s |
| `Delivery.RoundShrinks` | renet2/src/remote_connection.rs:474-711 | in every run of both ends, a pass with everything due and a slice's worth of budget that is answered within 3 s by an ack naming its packets leaves strictly fewer units outstanding, whatever happens in between |
| `Delivery.Delivers` | renet2/src/remote_connection.rs:474-711 | in every run as many such rounds as there were units outstanding leave nothing stored, if nothing more is accepted on the channel; every message is then held by the other end or was handed over, byte for byte |
| `UnreliableSendChannel.SendChannelUnreliable.SendMessage` | renet2/src/channel/unreliable.rs:138-156 | queues the message, or drops it for want of memory; which of the two is `ChannelTurns.QueuedExactly` |
| `ChannelTurns.QueuedExactly` | renet2/src/channel/unreliable.rs:138-156 | a message joins the queue exactly when the queue with it is within the memory |
| `UnreliableSendChannel.SendChannelUnreliable.GetPacketsToSend` | renet2/src/channel/unreliable.rs:58-136 | a prefix of the queue goes out on an ordered substrate and the rest is kept, else the affordable messages go out and the others are dropped; the packets carry exactly the messages chosen, small ones joined while there is room, long ones cut up under consecutive ids; memory is the bytes kept |
| `UnreliableSending.FitsExactly` | renet2/src/channel/unreliable.rs:66-78 | on an ordered substrate the messages sent are the longest front of the queue that the budget pays for |
| `UnreliableSending.AffordableExactly` | renet2/src/channel/unreliable.rs:66-78 | on others a message is sent exactly when the budget pays for it on top of those chosen before it |
| `UnreliableSending.PlanTight` | renet2/src/channel/unreliable.rs:103-134 | a small message starts a new packet only when the one before has no room for it, and an empty packet goes out exactly ahead of a first one that alone outgrows a slice |
| `UnreliableOrder.KeepsOrderExactly` | renet2/src/channel/unreliable.rs:94-133 | order is kept exactly when no small message precedes a long one and the messages that overflow read the same both ways |
| `UnreliableOrder.TurnedRound` | renet2/src/channel/unreliable.rs:120-123 | of messages that differ at most one may overflow |
| `UnreliableOrder.LongOvertakes` | renet2/src/channel/unreliable.rs:94-118 | a long message goes out before the small one queued ahead of it |
| `UnreliableOrder.OverflowSwaps` | renet2/src/channel/unreliable.rs:120-123 | two messages that overflow together change places |
| `UnreliableOrder.PlanIn` | renet2/src/channel/unreliable.rs:58-214 | the packets of a pass, all delivered in order to a channel with the memory, add exactly the messages sent, in the order sent |
| `UnreliableOrder.InOrderPlanIs` | renet2/src/channel/unreliable.rs:94-118 | packing that flushes the small messages before a long one keeps every message in order |
| `UnreliableOrder.Fifo` | renet2/src/channel/unreliable.rs:58-243 | over every run of passes that keep the order, and over every run with the pass repaired, what was handed over, what waits and what is queued together are what was accepted, in order |
| `UnreliableReceiveChannel.ReceiveChannelUnreliable.ProcessMessage` | renet2/src/channel/unreliable.rs:171-182 | queues the message, or drops it for want of memory |
| `UnreliableReceiveChannel.ReceiveChannelUnreliable.ProcessSlice` | renet2/src/channel/unreliable.rs:184-214 | feeds the slice, queues a finished message and notes when a slice last came |
| `UnreliableReceiveChannel.ReceiveChannelUnreliable.ReceiveMessage` | renet2/src/channel/unreliable.rs:236-243 | hands over the oldest message and gives back its memory |
| `UnreliableReceiveChannel.ReceiveChannelUnreliable.DiscardIncompleteOldSlices` | renet2/src/channel/unreliable.rs:216-234 | gives up exactly the stale messages below every fresh one, with their memory |
| `UnreliableReceiving.ProcessSliceInv` | renet2/src/channel/unreliable.rs:184-214 | memory is the bytes held plus 1200 per reserved slice, and every time noted is of an open constructor |
| `UnreliableReceiving.AllStaleGivenUp` | renet2/src/channel/unreliable.rs:216-234 | a pass leaves nothing stale in the channel exactly when nothing stale stood above something fresh before it, and it never touches what is fresh |
| `UnreliableReceiving.StaleStays` | renet2/src/channel/unreliable.rs:184-234 | a run from the empty channel after which a message stays of which nothing has arrived for 3 s |
| `Gathering.QueuedExactly` | renet2/src/channel/unreliable.rs:171-182 | a message is queued exactly when it fits besides what is held and reserved |
| `Gathering.NoRoom` | renet2/src/channel/unreliable.rs:184-196 | a first slice that finds no room for its whole message leaves no trace |
| `Gathering.Gathers` | renet2/src/channel/unreliable.rs:171-234 | over every run, from its first slice on, a message has exactly the slices that came in, until it is whole or none of them has come for 3 s |
| `Gathering.Completes` | renet2/src/channel/unreliable.rs:184-214 | over every run the event with the last missing slice queues the message, byte for byte, in whatever order and among whatever else the slices came |
| `Gathering.QuietEndsAll` | renet2/src/channel/unreliable.rs:216-234 | over every run a pass after 3 s without slices gives up all of them, with their memory |
| `ReplayWindow.Exact` | renetcode2/src/replay_protection.rs:24-40 | the window answers as the set of accepted sequences would, for exactly those sequences whose sum does not wrap to a number within the window |
| `ReplayWindow.WrapsToRefusal` | renetcode2/src/replay_protection.rs:24-27 | a new window refuses a sequence it never saw |
| `ReplayWindow.RunTracks` | renetcode2/src/replay_protection.rs:24-49 | over every run no sequence is accepted twice |
| `ReplayWindow.RunExact` | renetcode2/src/replay_protection.rs:24-49 | after every run a sequence counts as received exactly when it is 256 or more behind or was accepted |
| `ReplayProtecting.ReplayProtection.constructor` | renetcode2/src/replay_protection.rs:17-22 | a new window has seen nothing |
| `ReplayProtecting.ReplayProtection.AlreadyReceived` | renetcode2/src/replay_protection.rs:24-40 | the check on the ring |
| `ReplayProtecting.ReplayProtection.AdvanceSequence` | renetcode2/src/replay_protection.rs:42-49 | the update of the ring and of the most recent sequence |
| `NetcodePackets.SequenceBytesRequired` | renetcode2/src/packet.rs:380-391 | the search from the top finds the least number of bytes that hold the sequence |
| `NetcodePackets.PrefixRoundTrip` | renetcode2/src/packet.rs:372-378 | type and length come back from the prefix byte |
| `NetcodePackets.BodyRoundTrip` | renetcode2/src/packet.rs:125-215 | every packet body is read back |
| `FrameExamples.TypeByte` | renetcode2/src/packet.rs:372-378 | the low half of the first byte of a frame is 0 to 6 for the kind of packet, the high half the length of its sequence |
| `FrameExamples.KeepAliveBytes` | renetcode2/src/packet.rs:217-264 | the frame of a keep-alive packet, byte for byte |
| `NetcodeFrames.FrameRoundTrip` | renetcode2/src/packet.rs:217-314 | every frame without encryption comes back with its sequence, a connection request with 0, except sequence 0 with an empty body, which is too small; the replay window moves as it should |
| `NetcodeFrames.FirstDisconnectUnread` | renetcode2/src/packet.rs:266-276 | the frame of a disconnect packet with sequence 0 is too small to be read |
| `NetcodeFrames.SecondTimeRefused` | renetcode2/src/packet.rs:292-307 | a frame is refused when it comes again, whatever its sequence and body: as a duplicate, or as too small to be read |
| `NetcodeFrames.NeverTwice` | renetcode2/src/packet.rs:266-314 | for all bytes, a frame under the replay check that was authentic and new is refused as a duplicate when it comes again, even if its body could not be read; any other refusal leaves the window alone |
| `NetcodeFrames.KeylessIsRequest` | renetcode2/src/packet.rs:281-313 | without a key only connection requests decode, so the server's unreachable arm is unreachable |
| `NetcodeFrames.Encode` | renetcode2/src/packet.rs:217-264 | the buffer holds the frame, with 8 of the 16 signature bytes as they were, and nothing else changes; it fails exactly when the frame does not fit or a key is missing |
| `NetcodeFrames.DecodeBuffer` | renetcode2/src/packet.rs:266-314 | decodes the frame and moves the replay window only for an authentic packet not seen before |
| `NetcodeTable.FindOrAddKeeps` | renetcode2/src/server.rs:226-258 | a token is let through exactly when no entry binds it to another address, and then has the one entry |
| `NetcodeServers.NetcodeServer.constructor` | renetcode2/src/server.rs:164-201 | a new server has free slots and no pending clients |
| `NetcodeServers.NetcodeServer.FindOrAddConnectTokenEntry` | renetcode2/src/server.rs:226-258 | one scan finds the matching entry and the place for a new one: the first free, else the first of the oldest |
| `NetcodeServers.NetcodeServer.HandleConnectionRequest` | renetcode2/src/server.rs:290-469 | a request is accepted exactly when it speaks the protocol in time with a token made for this socket and server, its client id and address are not connected, no other address used the token, and there is room; the peer is then pending |
| `NetcodeTable.AcceptedExactly` | renetcode2/src/server.rs:290-469 | the same on the table, and that the token is then bound to the peer |
| `NetcodeTable.RefusedExactly` | renetcode2/src/server.rs:290-440 | exactly when a request is refused in silence, refused with a packet, or dropped as an error, and what that leaves of the table |
| `NetcodeServers.NetcodeServer.ProcessPacket` | renetcode2/src/server.rs:500-672 | packets of connected, pending and unknown peers, with the table invariant kept; what they leave in the table over runs is in `NetcodeRuns` |
| `NetcodeServers.NetcodeServer.ProcessResponse` | renetcode2/src/server.rs:594-656 | the answer to a challenge takes the first free slot under the pending id |
| `NetcodeServers.NetcodeServer.Update` | renetcode2/src/server.rs:715-726 | pending clients with an expired token are dropped, no others |
| `NetcodeServers.NetcodeServer.UpdateClient` | renetcode2/src/server.rs:742-819 | a slot is freed exactly when it is the client's and it timed out; every other client stays as it was |
| `NetcodeServers.NetcodeServer.Disconnect` | renetcode2/src/server.rs:829-860 | no client of that id is left exactly when there was one at most; the address that was dropped is neither connected nor pending |
| `NetcodeTable.DisconnectGone` | renetcode2/src/server.rs:829-860 | the same on the table, and that a client is reported exactly when one had the id |
| `NetcodeTable.SlotEndsExactly` | renetcode2/src/server.rs:500-860 | a client loses its slot exactly by its own disconnect packet, its timeout or being dropped; nothing else changes who is in it |
| `NetcodeTable.ConnectedWereAdmitted` | renetcode2/src/server.rs:290-656 | in every state of every run whoever is pending or connected had a request accepted before, with a token made for its client id, with its time limits, and used by no other address |
| `NetcodeRuns.Clock` | renetcode2/src/server.rs:715-717 | the time of a server is what has passed since it was made |
| `NetcodeRuns.PendingUntilExpired` | renetcode2/src/server.rs:715-726 | a pending client stays exactly as long as the seconds of the clock do not pass its token's timestamp |
| `NetcodeRuns.LastHeard` | renetcode2/src/server.rs:535-582 | in every state of every run the time noted for a client, pending or connected, is that of its last packet that could be decoded |
| `NetcodeRuns.TimedOutExactly` | renetcode2/src/server.rs:742-788 | in every run an update frees a client's slot exactly when its token sets a limit and none of its packets arrived within it |
| `NetcodeRuns.LastSpoken` | renetcode2/src/server.rs:460-809 | in every state of every run the other time noted is that of the last packet to the client |
| `NetcodeRuns.KeepAliveExactly` | renetcode2/src/server.rs:790-815 | in every run an update of a client that is not timed out sends a keep-alive exactly when nothing went to it for 250 ms |
| `NetcodeRuns.SequenceCounts` | renetcode2/src/server.rs:472-819 | the sequence of a client is the number of packets sent on its connection, so none is used twice |
| `NetcodeRuns.NoNumberTwice` | renetcode2/src/server.rs:405-620 | in every run no two packets outside connections have the same number, nor have two challenges |
| `NetcodeRuns.ConfirmedExactly` | renetcode2/src/server.rs:550-566 | a client counts as confirmed exactly if it sent a payload or a keep-alive since it has its slot |
| `NetcodeRuns.PayloadExactly` | renetcode2/src/server.rs:550-559 | a payload is handed on exactly when it comes from the address of a connected client, under that client's id |
| `NetcodeRuns.PayloadSentExactly` | renetcode2/src/server.rs:472-497 | a payload packet is made exactly when it is within 1300 bytes and there is such a client |
| `NetcodeRuns.LimitExactly` | renetcode2/src/server.rs:702-707 | the number of clients allowed is the one set, up to 1024 |
| `NetcodeRuns.ConnectedReported` | renetcode2/src/server.rs:594-656 | a client is reported as connected exactly by the step with which it takes a slot |
| `NetcodeRuns.AnsweredExactly` | renetcode2/src/server.rs:594-656 | exactly what comes of the answer to a challenge: connected, refused for want of a slot, ignored as the id is connected, or an error; the peer is not pending any more |
| `NetcodeRuns.DisconnectedReported` | renetcode2/src/server.rs:540-860 | and as disconnected exactly by the step with which it loses it |
| `NetcodeRuns.TokenForgotten` | renetcode2/src/server.rs:226-258 | in every run a token is forgotten only after 2047 other tokens were let through since it was |
| `NetcodeServers.NetcodeServer.ConnectedClients` | renetcode2/src/server.rs:710-712 | counts the slots taken |
| `NetcodeServers.NetcodeServer.FindClientByPeer` | renetcode2/src/server.rs:878-884 | the first slot of the peer, or none |
| `NetcodeServers.NetcodeServer.FindClientById` | renetcode2/src/server.rs:871-876 | the first slot of the client id, or none |
| `NetcodeTable.RunInv` | renetcode2/src/server.rs:290-860 | in every state of every run pending clients are kept under their own address, no address is both pending and connected or connected twice, at most 4096 are pending, and each token has one entry |
| `NetcodeTable.RequestsAnswered` | renetcode2/src/server.rs:332-360 | the handler is never called for a peer that is connected and does what it would do without its branch for one; a request is ignored exactly when its peer is connected |
| `NetcodeTable.AnswerUnique` | renetcode2/src/server.rs:594-656 | client ids stay unique unless a peer whose pending id is taken answers for an id that is free |
| `NetcodeTable.SharedClientId` | renetcode2/src/server.rs:594-656 | a run of five packets after which two slots share a client id |
| `NetcodeTable.RunUnique` | renetcode2/src/server.rs:290-860 | on runs where every peer answers its own challenge client ids are unique in every state |
| `ClientAddresses.AddrRoundTrip` | renet2_netcode/src/webtransport_socket/utils.rs:107-137 | every 64-bit index comes back from its address |
| `FrameExamples.AddressBytes` | renet2_netcode/src/webtransport_socket/utils.rs:107-121 | an address, byte for byte |
| `ClientAddresses.ClientIdxFromAddr` | renet2_netcode/src/webtransport_socket/utils.rs:123-137 | the loop over the groups computes the value of the address, in 64 bits |
| `SocketServers.SocketServer.Disconnect` | renet2_netcode/src/websocket_socket/server/socket.rs:490-524 | the client is marked lost |
| `SocketServers.SocketServer.ConnectionAccepted` | renet2_netcode/src/websocket_socket/server/socket.rs:494-519 | a pending client gets its id, and the client that had the id before is marked lost |
| `SocketServers.SocketServer.Preupdate` | renet2_netcode/src/webtransport_socket/server/socket.rs:508-577 | completed sessions of pending clients become clients, failed ones are marked lost |
| `SocketServers.SocketServer.TryRecv` | renet2_netcode/src/websocket_socket/server/socket.rs:574-623 | the next request that fits, else the next message that fits of the clients from where the last call stopped; in what order is `SocketRuns` |
| `SocketRuns.ScanFinds` | renet2_netcode/src/websocket_socket/server/socket.rs:603-622 | the search takes the first message of the first client, from where it starts, whose first message fits; it finds none exactly when there is no such client, and up to there drops first messages that are too large and marks those clients lost |
| `SocketRuns.RequestFound` | renet2_netcode/src/websocket_socket/server/socket.rs:574-601 | requests are looked at in order: those that do not fit go, the first that fits is taken |
| `SocketSends.AllLookedAt` | renet2_netcode/src/websocket_socket/server/socket.rs:569-622 | in every run, when the first call of an update finds nothing, no client had a message that fits at the front of its inbox |
| `SocketRuns.InOrder` | renet2_netcode/src/websocket_socket/server/socket.rs:574-623 | in every run what was handed on or dropped of a connection, followed by its inbox, is what came in for it |
| `SocketRuns.NothingDropped` | renet2_netcode/src/websocket_socket/server/socket.rs:574-623 | in every run with buffers that are large enough all that came in is handed on, in order, as far as it goes |
| `SocketRuns.RequestsInOrder` | renet2_netcode/src/websocket_socket/server/socket.rs:574-601 | in every run requests wait in the order they came, and indices count them |
| `SocketRuns.DroppedIsOver` | renet2_netcode/src/websocket_socket/server/socket.rs:490-660 | in every run a connection that is dropped is in no table once the update has ended, and never again |
| `SocketServers.SocketServer.Postupdate` | renet2_netcode/src/websocket_socket/server/socket.rs:625-660 | whatever the order, exactly the lost and finished clients are gone from both maps, the count and the index |
| `SocketServers.SocketServer.Send` | renet2_netcode/src/webtransport_socket/server/socket.rs:667-698 | to a client, or kept for a pending one as its first answer |
| `SocketSends.SentExactly` | renet2_netcode/src/webtransport_socket/server/socket.rs:667-698 | sending succeeds exactly for a pending client and for one whose session lives; only a session that ended is marked lost, for WebTransport |
| `SocketSends.SentInOrder` | renet2_netcode/src/websocket_socket/server/socket.rs:526-686 | in every run, as long as its session lives, a client gets the first answer sent to it while it was pending and then everything sent to it, in order; a pending client has that answer waiting |
| `SocketSends.FaultExactly` | renet2_netcode/src/websocket_socket/server/socket.rs:539-567 | exactly when taking in a session counts as an internal error |
| `SocketSends.FailedIsOver` | renet2_netcode/src/webtransport_socket/server/socket.rs:508-660 | in every run a connection whose session fails is in no table after the next whole update, and never again |
| `SocketSends.LeavesExactly` | renet2_netcode/src/websocket_socket/server/socket.rs:625-660 | a client leaves exactly with the end of an update in which it is marked lost or its session has finished |
| `SocketSends.FinishedIsOver` | renet2_netcode/src/websocket_socket/server/socket.rs:625-660 | in every run a client whose session has finished at the end of an update is in no table from then on |
| `SocketSends.MarkedExactly` | renet2_netcode/src/websocket_socket/server/socket.rs:490-524 | a connection is marked lost exactly by being dropped or denied, by another taking over its client id, or by a packet to it when its session has ended, besides failed sessions and messages too large |
| `SocketTables.RunInv` | renet2_netcode/src/websocket_socket/server/socket.rs:490-685 | the invariant holds in every state of every run of the server with its connection handlers |
| `SocketTables.RunCounted` | renet2_netcode/src/websocket_socket/server/socket.rs:526-660 | no connection is both pending and accepted, and the count is the sum of both |
| `SocketTables.NoInternalError` | renet2_netcode/src/websocket_socket/server/socket.rs:539-567 | neither branch marked as an internal error is ever reached: a client id in the hands of another session, a session without an answer |
| `SocketTables.SessionTied` | renet2_netcode/src/websocket_socket/server/socket.rs:539-567 | between updates a completed session points to itself by its client id and has an answer waiting |
| `SocketTables.IndexIsInverse` | renet2_netcode/src/websocket_socket/server/socket.rs:625-660 | between updates a client id points to a connection exactly when that connection is in use by it |

## Left out

- ChaCha20-Poly1305 and random keys (renetcode2/src/crypto.rs): frames are modelled without encryption, and in the server model decryption is an outcome given to the operation.
- Connect tokens as bytes (renetcode2/src/token.rs): a flat codec; the server model takes the decoded token.
- Round-trip time and bytes per second (renet2/src/remote_connection.rs:549-555, renet2/src/connection_stats.rs:61-84): floating-point smoothing; packet loss is modelled as a ratio.
- The netcode client and `RenetServer` (renetcode2/src/client.rs, renet2/src/server.rs): they would mostly add easy members.
- Tokio tasks, TLS, QUIC, URL parsing, WASM, UDP, Steam and Bevy: input and output, and wiring. Connection handlers are independent steps in `SocketTables.Next`.
- Building channels from a configuration (renet2/src/remote_connection.rs:190-252): the constructor of `RenetClient` takes the channels.
- RenetConnection.RenetClient.ProcessPacket: a slice index out of range, or a number of slices other than the one known for the message, is a panic in the code and excluded by the precondition; `Connections.NoPanicOnDelivery` shows that packets of the other end meet it.
- Slice constructors inside channels, and the statistics inside `RenetClient`, are values there; the classes `SliceConstructor` and `ConnectionStats` are proved against the same functions, so aliasing between owner and part is not modelled.
- Keys and replay windows inside the connections of `NetcodeServer`: the decoded packet is given to the operation; `NetcodeFrames.DecodeBuffer` models decoding with the window.
- RenetConnection.RenetClient.GetPacketsToSend: a number too large for a varint, on which the code panics, is modelled as ending the connection.
- NetcodeFrames.DecodeBuffer: demands a sequence length of at most 8 and a frame long enough for it, as the code panics on others.
- SocketServers.SocketServer.Send: what becomes of a packet once the writer of a session was given it is not modelled; a writer that is backed up drops it.
