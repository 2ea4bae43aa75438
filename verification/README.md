# uni.can protocols, verified

Two message transports run over 8-byte CAN frames: IMP (Intermodule Protocol), a
stop-and-wait protocol between two modules, and ProtoPlexer, which fragments
messages into chunks and reassembles interleaved streams, with a queue layer around
it. This project models both, and the raw signal packing of J1939, and proves what
they are for. `dafny verify dfyconfig.toml` checks everything.

Each protocol appears twice. A pure step machine (`ImpCore`, `PlexCore`,
`QueueCore`) has one function per branch structure of the C source; the theorems are
about its runs. A class (`ImpContext.Context`, `PlexContext.Context`,
`QueueRings.QueueObject`) updates session objects, reassembly objects, arrays and
ring indices in place as the source does, and every method is proved to perform
exactly the corresponding step, so the theorems hold of it. The steps themselves are
held against rules (`ImpRules`, `PlexRules`, `QueueRules`) that name no function of
the step machine: for every call they say, in states, numbers and places of the
table, what is answered, put out and left behind.

## What is proved

| file | content |
|---|---|
| `Can.dfy`, `Bytes.dfy` | frames, first-match scans, counting, remainders |
| `ImpCore.dfy` | IMP: identifiers, sessions, `start_send`, `add_frame`, `process` |
| `ImpInvariants.dfy` | what every call keeps: buffers, session keys, conservation of sessions |
| `ImpRules.dfy` | what every frame, send and `process` call is answered, reports and leaves behind, in states and numbers |
| `ImpClock.dfy` | the clock of a session is its last service; timeouts neither too early nor too late, over every run |
| `ImpReceive.dfy` | the receive side as a map from key to bytes; amortised buffer growth |
| `ImpSender.dfy` | what an acknowledged transfer sends for any answers |
| `ImpProcess.dfy` | silence, timeouts on the wrapping clock |
| `ImpUnacked.dfy` | unacknowledged transfers: what is put out, and delivery over a lossless FIFO |
| `ImpLink.dfy` | one acknowledged transfer over a channel that delays and drops: safety and completion |
| `ImpNetwork.dfy` | two nodes on a bus that others use too, seen through one session key |
| `ImpRetry.dfy` | one acknowledged transfer to a receiver that still holds an earlier reception |
| `ImpMany.dfy` | any number of transfers at once: when each is safe, what its sender can know of that, completion |
| `ImpStale.dfy` | three runs after which a key is taken again too early |
| `ImpStream.dfy` | unacknowledged messages one after the other under the same key come out in order |
| `ImpContext.dfy` | the session table updated in place |
| `Crc16.dfy` | the CRC table and loop against polynomial division; burst errors |
| `PlexCore.dfy` | ProtoPlexer: fragmentation and reassembly |
| `PlexInvariants.dfy` | what every chunk keeps; where a delivered message comes from |
| `PlexStreams.dfy` | recovery from any state; every interleaving of streams |
| `PlexRules.dfy` | the bytes on the wire; what every chunk is answered and leaves in the table |
| `PlexContext.dfy` | chunk building by loops; the reassembly table in shared or own memory |
| `QueueCore.dfy` | outbox, inbox and retry counting |
| `QueueLink.dfy` | two queue nodes and lossless wires: in-order delivery end to end |
| `QueueLoss.dfy` | the same with dropped chunks: what was not hit arrives |
| `QueueRules.dfy` | which messages are accepted; answers of the network; when the inbox loses a message |
| `QueueRings.dfy` | both rings in arrays, any wrap-around, payload regions that do not overlap |
| `J1939Signals.dfy` | raw signals at accumulated offsets: get after set, no interference |

Three intentions need a condition the code does not check, and the condition is
proved. IMP session keys are unique as long as every START carries the bit of its
initiator; `add_frame` does not look at that bit, a START with the wrong bit makes
keys clash (`WrongBitClashes`), and a send whose guards hold (`SendSucceeds`) keeps
keys apart if and only if no reception has the key formed from the lowest free id
(`SendClashes`). An id is free for the sender as soon as its transfer has ended
there, though frames of it may still be in flight. An acknowledged send is safe in
every run if and only if no frame of the key it takes is in flight
(`ManyTransfers`); what the receiver still holds under the key does not matter,
since START resets it. A sender cannot see the bus, but its own calls tell enough:
safe is a key it has never taken, and one under which every transfer so far was
acknowledged and has reported success or an abort (`CleanKeysAreSafe`). A timeout
(`StaleFrameAlters`) and an unacknowledged transfer (`UnheardEndAlters`) may leave
an END behind that alters the next message, and a success does not make up for an
earlier timeout (`SuccessIsNotEnough`). The network's `RESEND` answers are reported
at every `send_attempts + 1`st request since the last reset (`AttemptsReported`),
except that a limit of 2^32 - 1 is never exceeded by the 32-bit counter
(`LargestLimitNeverReports`).

## Model

| member | source | states |
|---|---|---|
| ImpLink.TransferIsSafe | src/uni_can_protocol_imp.c:164-336 | One acknowledged transfer between idle contexts, over a channel that delays or drops, with `process` called anywhere at any time: never more than one frame in flight, at most one message handed out and it is the one sent, TX_FINISHED only after that delivery, and a bounded number of frames handled |
| ImpLink.TransferCompletes | src/uni_can_protocol_imp.c:464-583 | For every run without loss, timeout or rejection, with frames delivered and `process` called at any time: the transfer takes exactly 2 * (ceil(length / 8) + 2) frames; until then one frame is in flight and success is not reported; then the message is delivered, the sender has reported it and every slot on both sides is as before |
| ImpLink.LockstepCompletes | src/uni_can_protocol_imp.c:464-583 | Delivering each frame at once is such a run and reaches that end |
| ImpLink.AbortFrees | src/uni_can_protocol_imp.c:285-292 | In every run of one transfer, once the receiver has handled an ABORT_WA of the sender it is as it was before the transfer |
| ImpRules.OnTheWire | src/uni_can_protocol_imp.c:354-374 | A packet goes out as an extended identifier with address, sender, id and command at bits 24, 19, 15 and 10, commands numbered 0 to 8, and its bytes in order with zeros behind them |
| ImpRules.Unheeded | src/uni_can_protocol_imp.c:528-553 | A frame that is too long, not for this node, from the address of all, with an unknown command, or for all although it asks for an answer changes nothing; the first of these reasons is answered |
| ImpRules.Unknown | src/uni_can_protocol_imp.c:555-577 | A frame for no session, unless it is a START that finds a slot: NO_FREE_SESSION, and ABORT_WA in answer exactly to the commands that ask for one |
| ImpRules.StartOpens | src/uni_can_protocol_imp.c:555-570 | START for no session opens an empty reception, active from now on, in the first free slot whose mask has the peer's bit, and only START itself is answered with ACK |
| ImpRules.AbortEnds | src/uni_can_protocol_imp.c:198-292 | ABORT_WA for a session reports RX_ABORTED for a reception and TX_ABORTED for a transfer, with its peer and id, and empties that slot and no other |
| ImpRules.StartEmpties | src/uni_can_protocol_imp.c:294-307 | START empties the reception it finds, sets its mode and its clock, and only START itself is answered |
| ImpRules.DataGrow | src/uni_can_protocol_imp.c:132-162 | Data within the limit that find memory are appended, the buffer grows by the doubling rule, the clock is set, and only DATA is answered |
| ImpRules.DataEnd | src/uni_can_protocol_imp.c:309-319 | Data over the limit or without memory end the reception with RX_ABORTED, and with ABORT_WA in answer to DATA |
| ImpRules.EndDelivers | src/uni_can_protocol_imp.c:244-283 | END and END_WA hand the message out with mode, addresses, id and data exactly if the validator accepts it and memory is granted; END is answered with ACK, NACK or ABORT_WA, END_WA never |
| ImpRules.ReplyEndsReception | src/uni_can_protocol_imp.c:332-335 | ACK or NACK for a reception ends it with RX_ABORTED and ABORT_WA |
| ImpRules.AckAdvances | src/uni_can_protocol_imp.c:222-241 | ACK draws the next eight bytes or what is left of them, or END, or after END reports TX_FINISHED and empties the slot; the clock is set with each frame |
| ImpRules.NackRepeats | src/uni_can_protocol_imp.c:207-215 | NACK draws START or the same bytes again and sets the clock; after END it ends the transfer with TX_ABORTED |
| ImpRules.SenderFrameEndsTransfer | src/uni_can_protocol_imp.c:218-224 | A START, DATA or END for a transfer ends it with TX_ABORTED and ABORT_WA |
| ImpRules.TimesOut | src/uni_can_protocol_imp.c:591-606 | The lowest session in one of the four waiting states whose clock is more than the timeout behind, modulo 2^32, is reported as RX_TIMEOUT or TX_TIMEOUT and emptied |
| ImpRules.Drains | src/uni_can_protocol_imp.c:608-630 | Without such a session the lowest unacknowledged transfer puts out its next eight bytes, or what is left, or END_WA with TX_FINISHED; it never times out |
| ImpRules.Rests | src/uni_can_protocol_imp.c:585-633 | Without either the call does nothing |
| ImpRules.SendOpens | src/uni_can_protocol_imp.c:464-526 | A send that meets its conditions opens a transfer in the first free slot whose mask has the peer's bit, with the lowest free number, the sender's bit and the clock set to now, and puts out START or START_WA |
| ImpRules.SendFails | src/uni_can_protocol_imp.c:464-526 | Every other send changes nothing and is answered with the first reason: too large, wrong address, no slot or number, no memory |
| ImpClock.ClockIsLastServed | src/uni_can_protocol_imp.c:169-242 | In every run of calls at times that do not go back, the clock of a session that waits is the reading of the last call that opened it, brought it START or data it took, or drew START, DATA or END from it |
| ImpClock.NotTooEarly | src/uni_can_protocol_imp.c:591-606 | In every such run `process` leaves a session as it is that such a call served at most the timeout ago, on the wrapping clock |
| ImpClock.NotTooLate | src/uni_can_protocol_imp.c:591-606 | And one that has waited longer is reported and ended by the next `process` call, unless one in a lower slot is due as well |
| ImpMany.ReachableNet | src/uni_can_protocol_imp.c:464-633 | Two nodes on a bus that delays, reorders or drops frames, on which both send to anyone and third nodes send anything in their own names: in every run from fresh nodes each keeps its sessions with the other under different keys, and each frame in flight has its sender's address and, if a START, its sender's bit |
| ImpMany.ManyTransfers | src/uni_can_protocol_imp.c:464-633 | Any number of transfers at once, of both kinds, in both directions and with others: an accepted acknowledged send is safe in every run until its key is taken again, if and only if no frame of that key is in flight at the send, whatever the receiver holds under it. Safe: at most one frame of it is in flight, at most one message comes out and it is the one sent, success is reported at most once and only after that, a bounded number of its frames is handled, and after success nothing of it is left |
| ImpMany.CleanKeysAreSafe | src/uni_can_protocol_imp.c:464-633 | The condition from the caller's side, in every run from fresh nodes: if the sender has never taken the key, or every transfer it had under the key was acknowledged and has reported TX_FINISHED or TX_ABORTED, the send finds neither a frame nor a session of the key and is safe until the key is taken again |
| ImpMany.ManyComplete | src/uni_can_protocol_imp.c:464-633 | Completion of each of many transfers: as long as none of its own frames is lost, refused, rejected or short of memory and none of its sessions overdue at a `process` call, it takes exactly 2 * (ceil(length / 8) + 2) frames, then it is delivered and reported and nothing of it is left, whatever becomes of the others |
| ImpNetwork.ActSeen | src/uni_can_protocol_imp.c:506-633 | Seen through one key with at most one frame in flight to the node, every call at the node is an event of a single transfer between two contexts of one slot, or changes nothing; excluded are a send that takes the key, a START of the key that finds no slot, and a key under which the node has an unacknowledged transfer |
| ImpNetwork.RunSwaps | src/uni_can_protocol_imp.c:464-633 | The two nodes may be exchanged in every run, so what holds of transfers in one direction holds in the other |
| ImpRetry.StartClears | src/uni_can_protocol_imp.c:294-306 | When a receiver still holds data of an earlier transfer under the key, START makes that reception acknowledged and empty and is answered ACK, for whatever it held and however the validator and the allocator answer |
| ImpRetry.EndsClear | src/uni_can_protocol_imp.c:198-242 | When an acknowledged transfer reports success or an abort, no frame of it is in flight and both nodes are as before it, also if the receiver held an earlier reception when it began |
| ImpStale.StaleFrameAlters | src/uni_can_protocol_imp.c:485-499 | A run from fresh nodes in which a transfer timed out and its key is taken again while its END is in flight: the receiver hands out an empty message in place of the one sent |
| ImpStale.UnheardEndAlters | src/uni_can_protocol_imp.c:608-630 | The same after an unacknowledged transfer that has reported TX_FINISHED while its END_WA is in flight |
| ImpStale.SuccessIsNotEnough | src/uni_can_protocol_imp.c:485-499 | A run in which the last transfer under the key was acknowledged and has reported TX_FINISHED, but the one before it timed out: a START is in flight and the next send is not safe |
| ImpInvariants.ReachableBuffers | src/uni_can_protocol_imp.c:116-185 | In every run offset <= size <= capacity <= max_message_size for each session, receive capacity is 0 or min(32 * 2^k, max_message_size), and a free slot owns no payload |
| ImpInvariants.ReachableDistinct | src/uni_can_protocol_imp.c:485-506 | In every run transfers have pairwise distinct (peer, id) and receptions pairwise distinct keys, whatever frames arrive |
| ImpInvariants.AtMostEightPerPeer | src/uni_can_protocol_imp.c:485-499 | In every run at most eight transfers to one peer are under way |
| ImpInvariants.ReachableKeys | src/uni_can_protocol_imp.c:506-569 | If every START carries its initiator's bit, all sessions in use have distinct keys in every run |
| ImpInvariants.OthersKeepKeys | src/uni_can_protocol_imp.c:528-633 | Received frames and `process` never make distinct keys clash, even with a wrong bit |
| ImpInvariants.SendSucceeds | src/uni_can_protocol_imp.c:464-526 | A send returns OK if and only if addresses and length are in order, some free slot has the peer's bit in its mask, one of the eight numbers belongs to no transfer to the peer, and memory is granted |
| ImpInvariants.SendClashes | src/uni_can_protocol_imp.c:464-526 | When these guards hold, the send keeps keys distinct if and only if no reception has the key made of the peer and the lowest free id with the sender's bit, in the table before the call |
| ImpInvariants.WrongBitClashes | src/uni_can_protocol_imp.c:555-569 | A concrete START with the wrong bit followed by a send gives two sessions the same key |
| ImpInvariants.ScanIsLookup | src/uni_can_protocol_imp.c:57-72 | With distinct keys the first-match scan finds the one session with the key |
| ImpInvariants.CallConserves | src/uni_can_protocol_imp.c:464-633 | Each call opens at most one session or reports the end of at most one, never both, and the number in use changes by exactly that |
| ImpInvariants.SessionsConserved | src/uni_can_protocol_imp.c:464-633 | Over every run sessions in use equal sessions opened minus terminal events reported |
| ImpReceive.ReceptionIsHistory | src/uni_can_protocol_imp.c:285-318 | In every run in which no two sessions share a key, every reception holds the concatenation of its key's data since its last START, whatever frames for other keys came between |
| ImpReceive.DeliveryComesFromReception | src/uni_can_protocol_imp.c:244-283 | A message is handed out only by END or END_WA of its own key, from the reception the scan finds for that key |
| ImpReceive.DeliveredIsHistory | src/uni_can_protocol_imp.c:244-336 | In every such run a delivered message is the concatenation of its key's data since its last START and at most max_message_size long |
| ImpReceive.ParityDelivers | src/uni_can_protocol_imp.c:244-336 | The same in every run in which each START carries its initiator's bit |
| ImpReceive.AbortNeverAnswered | src/uni_can_protocol_imp.c:528-583 | ABORT_WA draws no frame, whatever it meets |
| ImpReceive.GrowthAmortised | src/uni_can_protocol_imp.c:132-162 | The capacities copied by all reallocations of one reception sum to less than twice the final capacity |
| ImpSender.SendsItsScript | src/uni_can_protocol_imp.c:169-242 | For any answers, START and the frames drawn by ACKs are a prefix of START, the 8-byte slices of the payload, END |
| ImpSender.NackRepeats | src/uni_can_protocol_imp.c:187-215 | A NACK before END is answered with the frame sent last, unchanged; after END it ends the transfer |
| ImpProcess.ProcessStep | src/uni_can_protocol_imp.c:585-633 | A call that puts out a frame or an event strictly lowers the work left; a call is silent if and only if no unacknowledged transfer and no overdue session exists, and then changes nothing |
| ImpProcess.FallsSilent | src/uni_can_protocol_imp.c:585-633 | `process` alone answers no more often than there is work, whenever it is called |
| ImpUnacked.EachDrains | src/uni_can_protocol_imp.c:608-630 | In every run of `process` calls, sends and frames for other keys, the frames put out for an unacknowledged transfer are a prefix of its 8-byte DATA_WA slices followed by END_WA, it stands right behind the last of them, and it never times out |
| ImpUnacked.DrainedWhenSilent | src/uni_can_protocol_imp.c:585-633 | Once `process` has nothing left to do, each such transfer has put out all of its frames |
| ImpUnacked.Arrives | src/uni_can_protocol_imp.c:285-336 | A receiver with room, memory and an accepting validator, and no timeout, that hears a prefix of START_WA, the slices and END_WA among frames for other keys, sends and `process` calls hands the message out unaltered exactly at END_WA and answers none of these frames |
| ImpUnacked.UnackedDelivered | src/uni_can_protocol_imp.c:464-633 | Sender and such a receiver composed over a lossless FIFO: whatever else either does, the message of an unacknowledged transfer comes out unaltered exactly at its END_WA |
| ImpStream.StreamOut | src/uni_can_protocol_imp.c:464-633 | Unacknowledged messages sent one after the other under the same key: in every run of the sender in which no acknowledged send takes the key and no frame for it comes in, the frames put out under the key are those of the messages in order, all but the last complete, and the slot stands right behind the last frame |
| ImpStream.StreamDelivered | src/uni_can_protocol_imp.c:464-633 | Such a stream over a lossless FIFO, to a receiver with room, memory, an accepting validator and no timeout: the messages handed out for the key are those sent, unaltered and in order, each exactly when its END_WA is heard, whatever else either node does |
| ImpStream.AllDelivered | src/uni_can_protocol_imp.c:585-633 | Once `process` has nothing left to do and all frames are heard, every message of the stream has come out |
| ImpProcess.TimeoutExact | src/uni_can_protocol_imp.c:592-597 | With the clock read modulo 2^32 the timeout test is exact whenever less than 2^32 ms have passed |
| ImpProcess.ReleasedInOrder | src/uni_can_protocol_imp.c:592-606 | An overdue session with n overdue ones below it is reported and released by call n at that instant |
| ImpProcess.AllReleased | src/uni_can_protocol_imp.c:592-606 | k overdue sessions take exactly k calls; all others stay as they are and nothing is overdue afterwards |
| ImpCore.CanIdRoundTrip | src/uni_can_protocol_imp.c:354-374 | The four fields of an identifier come back, addresses and id cut to their widths |
| ImpContext.Context.StartSend | src/uni_can_protocol_imp.c:464-526 | The call on session objects performs exactly the modelled send, with every error path |
| ImpContext.Context.AddFrame | src/uni_can_protocol_imp.c:528-583 | The call on session objects performs exactly the modelled reception of a frame |
| ImpContext.Context.Process | src/uni_can_protocol_imp.c:585-633 | The call on session objects performs exactly the modelled timeout or slice |
| ImpContext.Context.ChooseId | src/uni_can_protocol_imp.c:485-499 | The reservation array yields the lowest id no transfer to the peer holds, or 8 |
| ImpContext.Session.HandleTx | src/uni_can_protocol_imp.c:198-242 | The sending session moves in place as modelled |
| ImpContext.Session.HandleRx | src/uni_can_protocol_imp.c:285-336 | The receiving session moves in place as modelled, its buffer kept, dropped or replaced by a new one |
| ImpContext.Session.Append | src/uni_can_protocol_imp.c:132-162 | Bytes are appended to the buffer, which grows by doubling up to the limit and keeps its contents |
| ImpContext.EveryPeer | src/uni_can_protocol_imp.c:433-438 | The mask a session has by default, 32 ones, accepts every address a frame can carry |
| ImpContext.Init | src/uni_can_protocol_imp.c:412-441 | A context exists exactly for a source address and a granted table, with the configured number of empty sessions and masks, size and timeout, or 8, 200 and 1000 |
| Crc16.CrcIsRemainder | src/uni_can_protoplexer.c:21-62 | For every byte string the table-driven CRC is the remainder of the message times x^16 divided by x^16 + x^12 + x^5 + 1 |
| Crc16.DivisionIdentity | src/uni_can_protoplexer.c:56-62 | The long division used as reference is a division: dividend = quotient times generator + remainder |
| Crc16.TableIsDivision | src/uni_can_protoplexer.c:21-54 | Each of the 256 table entries is the remainder of its index times x^16 |
| Crc16.Compute | src/uni_can_protoplexer.c:56-62 | The loop over the bytes computes that CRC |
| Crc16.BurstDetected | src/uni_can_protoplexer.c:56-62 | Any change confined to 16 consecutive bits changes the CRC |
| PlexCore.CanIdRoundTrip | src/uni_can_protoplexer.c:275-299 | Addresses, priority and first flag come back, cut to their widths |
| PlexRules.ChunkIsBuilt | src/uni_can_protoplexer.c:343-403 | Byte by byte what goes over the wire: fields of the identifier, header with identifier, length and CRC low byte first, data, zeros behind; a chunk exists as long as bytes are left, and only for lengths of six to eight |
| PlexRules.TooLong | src/uni_can_protoplexer.c:445-452 | A chunk of more than eight bytes is refused and changes nothing, not even a message lent out |
| PlexRules.Unrelated | src/uni_can_protoplexer.c:454-470 | A chunk for another address is refused unless the receiver monitors, and only the view expires |
| PlexRules.NoEntry | src/uni_can_protoplexer.c:77-107 | Without an entry of its pair or an empty one a chunk is refused, and only the view expires |
| PlexRules.FirstRejected | src/uni_can_protoplexer.c:483-535 | A first chunk that is too short, has a wrong address, brings more than it announces, finds no memory or has the error identifier is answered so, in this order, and empties the entry of its pair |
| PlexRules.FirstBegins | src/uni_can_protoplexer.c:477-536 | Every other first chunk begins a message with the announced fields in the entry of its pair, whatever that held |
| PlexRules.NextRejected | src/uni_can_protoplexer.c:538-549 | A further chunk without a message begun, or with more bytes than announced, is answered so and empties the entry |
| PlexRules.NextAppends | src/uni_can_protoplexer.c:549-568 | Every other further chunk is appended; with all announced bytes there the CRC decides, and the message is copied, lent out or kept |
| PlexStreams.NeverDelivered | src/uni_can_protoplexer.c:445-568 | A message without identifier or address, not for this receiver, or longer than configured is never delivered, whatever the receiver holds and other pairs send in between; each of its chunks gets the answer that says why |
| PlexStreams.Interleaving | src/uni_can_protoplexer.c:445-626 | Any interleaving of chunks of complete messages, with never more messages under way than slots and either form of call at each chunk: every message is delivered unaltered exactly at its last chunk, and every other call answers OK with nothing |
| PlexStreams.FewPairs | src/uni_can_protoplexer.c:90-107 | Streams of at most as many pairs as there are slots may be interleaved in any way |
| PlexStreams.Recovery | src/uni_can_protoplexer.c:445-568 | From any reachable receiver state, if the pair has a slot or one is free or only lent out, the chunks of a message answer OK up to the last, which delivers if and only if the data have the announced CRC, whatever other pairs send in between |
| PlexStreams.RoomFor | src/uni_can_protoplexer.c:77-107 | A slot is found if and only if the pair has one, or one is free or only lent out |
| PlexStreams.NoRoomRefused | src/uni_can_protoplexer.c:472-475 | Otherwise the first chunk is refused and only an expired view changes |
| PlexStreams.Delivers | src/uni_can_protoplexer.c:343-626 | `build_chunk(0..n-1)` of a valid message, fed from any state with room, delivers exactly that message at the last chunk |
| PlexStreams.BurstRejected | src/uni_can_protoplexer.c:556-565 | Data changed within 16 consecutive bits, header intact: WRONG_CRC and nothing delivered |
| PlexInvariants.PerformKeeps | src/uni_can_protoplexer.c:77-156 | Every call keeps signatures distinct, size <= announced length <= limit, and what is lent out complete with a right CRC; a chunk of one pair leaves the entries of other pairs alone apart from an expired view |
| PlexInvariants.ReachableOk | src/uni_can_protoplexer.c:445-626 | That invariant holds after every run from initialisation |
| PlexInvariants.ReceptionIsHistory | src/uni_can_protoplexer.c:538-554 | Every reassembly is its pair's last first chunk and all bytes since |
| PlexInvariants.DeliveredIsHistory | src/uni_can_protoplexer.c:556-626 | A delivered message has the identifier, length and CRC its header announced and consists of its pair's bytes since then |
| PlexContext.BuildChunk | src/uni_can_protoplexer.c:343-403 | The byte-filling loop yields the modelled chunk, or the modelled error |
| PlexContext.BuildChunks | src/uni_can_protoplexer.c:405-436 | All chunks of the message in order, or none and the error |
| PlexContext.Context.RxAddChunk | src/uni_can_protoplexer.c:445-568 | The call on reassembly objects performs exactly the modelled step, releasing an expired view first, and keeps the data of different entries disjoint in shared or own memory |
| PlexContext.Context.AddChunk | src/uni_can_protoplexer.c:570-595 | The copying form performs exactly the modelled step: a complete message is copied and its entry freed, also when the copy cannot be allocated |
| PlexContext.Context.AddChunkView | src/uni_can_protoplexer.c:597-626 | The lending form performs exactly the modelled step: the entry stays, and the message lent out is read where its data lie |
| PlexContext.Context.PayloadAlloc | src/uni_can_protoplexer.c:111-126 | Memory is granted exactly when the length is at most the limit, or there is no limit and the heap is used, and the heap has it if it is needed; it never overlaps that of another entry |
| PlexContext.Context.Kept | src/uni_can_protoplexer.c:109-134 | Writing the bytes of one entry leaves the data of all others as they are |
| PlexContext.InitStatic | src/uni_can_protoplexer.c:164-200 | A context over memory of the application exists exactly for a valid configuration and is empty |
| PlexContext.Init | src/uni_can_protoplexer.c:202-224 | A context over the heap exists exactly when a chunk can hold the header and the table can be allocated; it is empty, with 16 entries by default |
| QueueLink.InOrder | src/uni_can_protoplexer_queue.c:83-216 | For every schedule of calls at two nodes with lossless wires: messages given to the application followed by those in the inbox are an in-order unaltered subsequence of the accepted sends the receiver can take; a prefix if none was refused for a full inbox; all of them once no chunk is on the way |
| QueueLink.InOrderBack | src/uni_can_protoplexer_queue.c:83-216 | The same for the other direction in the same run |
| QueueLink.Consume | src/uni_can_protoplexer_queue.c:130-145 | Chunks of a message the receiver cannot take leave nothing behind; of one it can take, the last chunk and no other hands it out |
| QueueRules.SendAccepts | src/uni_can_protoplexer_queue.c:83-128 | A send returns OK if and only if the data are within the limit, a chunk holds the header and there is a place for each of the least number of chunks that hold header and data; then these chunks are behind the others, else nothing changes and the first reason is answered |
| QueueRules.DrainedAccepts | src/uni_can_protoplexer_queue.c:83-200 | After as many transmissions as chunks are queued, every message within the limit that has no more chunks than the outbox has places is accepted |
| QueueRules.NetworkAnswers | src/uni_can_protoplexer_queue.c:160-200 | What each answer of the network does to the oldest chunk and the counter, and what the caller is told |
| QueueRules.ChunkArrives | src/uni_can_protoplexer_queue.c:130-158 | A complete message goes to the end of the inbox, and is lost with CANT_SAVE_MESSAGE exactly when all places are taken |
| QueueRules.OldestHandedOut | src/uni_can_protoplexer_queue.c:202-216 | Messages are handed out oldest first, each once |
| QueueRules.PlacesSuffice | src/uni_can_protoplexer_queue.c:19-128 | In every run neither ring holds more than it has places |
| QueueRules.NoneRefused | src/uni_can_protoplexer_queue.c:130-216 | In every run of two nodes no message is lost at an inbox that has a place free whenever a chunk is taken |
| QueueLoss.WholeMessage | src/uni_can_protoplexer.c:445-626 | From any valid receiver state, the chunks of a message heard one after the other complete exactly that message and nothing else, if and only if its pair has an entry or one is free or only lent out; otherwise they complete nothing |
| QueueLoss.IntactArrive | src/uni_can_protoplexer_queue.c:130-200 | For every schedule of calls at two nodes whose network drops chunks as it likes (NON_RECOVERABLE): if the messages sent are of at most as many pairs as the receiver has entries, each message it can take and all of whose chunks it heard is completed, in order, whatever the others left behind; and all that is completed reaches inbox or application, if none found the inbox full |
| QueueLoss.IntactArriveBack | src/uni_can_protoplexer_queue.c:130-200 | The same for the other direction in the same run |
| QueueCore.AttemptsReported | src/uni_can_protoplexer_queue.c:173-181 | In every run of sends, received chunks, transmissions with any answer and reads, the counter stays at most the limit and counts the RESEND answers since the last reset, and exactly every limit + 1st of these is reported, for every limit but 2^32 - 1 |
| QueueCore.LargestLimitNeverReports | src/uni_can_protoplexer_queue.c:173-181 | With limit 2^32 - 1 the counter wraps instead: the 2^32nd request in a row is answered OK |
| QueueRings.QueueObject.Send | src/uni_can_protoplexer_queue.c:83-128 | All chunks of the message are appended, or the outbox is unchanged |
| QueueRings.QueueObject.AddChunk | src/uni_can_protoplexer_queue.c:130-145 | The receiver takes the chunk; a complete message is appended to the inbox, or refused when that is full |
| QueueRings.QueueObject.PollRx | src/uni_can_protoplexer_queue.c:147-158 | A chunk the network has goes to the receiver; without one nothing changes |
| QueueRings.QueueObject.PollTx | src/uni_can_protoplexer_queue.c:160-200 | The oldest chunk is handed to the network; it leaves the front of the outbox when sent or not recoverable, stays for every other answer, and the attempt counter moves as modelled |
| QueueRings.QueueObject.PollNew | src/uni_can_protoplexer_queue.c:202-216 | The oldest message is handed out and leaves the inbox |
| QueueRings.QueueObject.PushMessage | src/uni_can_protoplexer_queue.c:19-37 | A message is copied behind the last one into the memory of its place; what is queued stays as it is |
| QueueRings.QueueObject.PopChunk | src/uni_can_protoplexer_queue.c:39-42 | Advancing the head with wrap-around drops the first chunk |
| QueueRings.RingPush | src/uni_can_protoplexer_queue.c:116-124 | Writing behind the last element appends, across the wrap-around |
| QueueRings.RingPop | src/uni_can_protoplexer_queue.c:212-213 | Moving the head on modulo the size drops the first element |
| QueueRings.Init | src/uni_can_protoplexer_queue.c:49-81 | A queue exists exactly for storage that can hold something and a valid configuration, and is empty |
| J1939Signals.OnesIsPowerLessOne | src/uni_can_j1939_msg.c:52 | The mask of n one bits, as the model writes it, is the number 2^n - 1 that the source computes |
| J1939Signals.StartsBehindOthers | src/uni_can_j1939_msg.c:46-70 | A signal starts right behind the bits of all signals before it |
| J1939Signals.ReadsLastField | src/uni_can_j1939_msg.c:42-73 | Reading yields, bit by bit, the field of the last signal with the identifier, with zeros above it |
| J1939Signals.GetAfterSet | src/uni_can_j1939_msg.c:42-115 | Get after set returns the value cut to the length of the last signal with the identifier |
| J1939Signals.OthersUnchanged | src/uni_can_j1939_msg.c:75-115 | Setting one identifier changes what no other one reads |
| J1939Signals.SetWritesOnly | src/uni_can_j1939_msg.c:83-112 | Setting writes the bits of all signals with the identifier and leaves every other bit |
| J1939Signals.GotNone | src/uni_can_j1939_msg.c:44-72 | An identifier the descriptor lacks reads nothing |
| J1939Signals.Data.SignalGet | src/uni_can_j1939_msg.c:42-73 | The loop finds the field of the last match; it succeeds exactly when there is one |
| J1939Signals.Data.SignalSet | src/uni_can_j1939_msg.c:75-115 | The loop writes the field of every match in place; it succeeds exactly when there is one |

## How the source is rendered

- Bit fields of identifiers and of 16-bit header words are written with division and
  remainder; the CRC register and its table are 16-bit vectors. A 64-bit signal word
  is the sequence of its bits, and the operators act on them.
- Millisecond readings and the send-attempt counter wrap modulo 2^32, payload offsets
  modulo 2^16. Lengths and identifiers of messages have their C widths where a theorem
  needs them (`Typed`).
- An IMP address mask is the set of peers whose bit is one.
- Results of allocation, of the message validator and of the network are parameters of
  a call (`Env`, `Hw`) and arbitrary; the delivery theorems of ProtoPlexer assume that
  memory is granted.
- A pointer to an entry of the reassembly table (`rx_view`, the completed entry) is its
  index. A free entry keeps no old values.
- ProtoPlexer's queue calls back into the application only at the end of `poll_new`; a
  `queue_send` from there is a separate call of the model.

## Left out

- Third nodes that send IMP frames under the address of one of the two nodes considered; the receive-side, key and conservation theorems cover any traffic.
- What a ProtoPlexer receiver makes of a message that lost chunks to NON_RECOVERABLE: chunks of the next message of its pair may be appended to it, and only the CRC stands against that.
- Refused memory in the delivery theorems of ProtoPlexer: it ends a message with the modelled error.
- Null-pointer checks, modes outside their enumeration, `deinit` and the freeing of messages and chunk lists: nothing to prove beyond reading them.
- An absent output parameter of `add_chunk` or `add_chunk_view`, which releases a complete message unseen.
- The WRONG_PRIORITY branch of reassembly: the four bits read from an identifier never exceed the limit of 15.
- `result_to_string` tables.
- J1939 SLOT scaling in floating point with NaN and infinity, PGN getters and setters, the PGN request, the transport protocol (which has no code).
- Channel wrappers, the C++ adapter, backends, factory, and the application.
- Overflow of `size_t` products of element counts and payload sizes.
