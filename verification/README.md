# rsadb: verified models

Dafny models of the protocol core of `rsadb`, an ADB client, with proofs. `dafny verify dfyconfig.toml`
checks everything. The code works on shared state, queues and buffers, and so do the models: objects
are classes with methods that update their fields, and loops are loops. A method that runs without
awaiting is proved against a function, and the theorems are about those functions and about state
machines built from them. A method that awaits is cut at its awaits, each stretch is proved against such
a function, and its own contract says what the whole call has done.

## Layout

* **Session multiplexer.** `StreamModel` has the functions for one stretch of code between two awaits.
  `Registry` and `SessionTasks` are the objects (stream state, registry, reader, owner); `OwnerStretches`
  says what it is for a stretch of them to be a step of `StreamModel`, whatever else the stream's record
  holds. `DeviceEngine` and `DeviceLoop` are the peer. `StreamMachine`, `StreamInvariant`,
  `StreamPreserved` and `StreamPreservedPeer` are one stream as a step system and its invariant.
  `SessionSystem` is a session of any number of streams with one outbox, one wire each way and one
  device; `SessionProjection` shows that it simulates the one-stream machine for every id at once,
  `SessionInvariant` lifts the invariant to all runs. The results are in `SessionTheorems` (flow control,
  back-pressure, integrity, message language), `FlowControl` (the first two for every device that keeps
  the protocol's rule), `SessionLoss`, `SessionProgress`, `SessionLiveness` and `SessionLead` (no wait is
  for ever, and none depends on other streams), and `SessionDelivery` (no chunk is held back). Steps there
  are what happens between two awaits. `AtomicWait` looks at the same wait with every atomic access a step
  of its own. `StreamIds` is the id counter.
* **Wire.** `Bytes`, `Wire`, `WireCodec` (headers and checksums), `Framed` (byte streams), `Usb` and
  `UsbTheorems` (bulk endpoints as packet queues; a request completes as section 5.8.3 of the USB 2.0
  specification says: when it is full or with the first short packet).
* **Keys.** `Montgomery` and `PubKey`.
* **Services.** `Channel` (buffered reading), `ShellV2`, `Quoting`, `Content` (with
  `ContentLines`, `ContentPrinting` and `ContentTheorems`),
  `SyncCodec`, `SyncDevice` and `SyncDeviceTheorems` (the emulated device), `SyncClient`, `SyncSession`,
  and `SyncOutcomes` (what every call says and returns, byte by byte and field by field).
* **Handshake.** `Handshake`, against a device that is any function from receives to answers.

## What turned out

* "An OKAY immediately followed by CLSE reads as written, then closed" (docs/architecture.md:54-58)
  holds when a look at the two atomics is not interrupted (`SessionProgress.OkayThenClose`,
  `AtomicWait.UninterruptedLook`), which is so on a current-thread runtime. With single atomic accesses it
  is false (`AtomicWait.OkayThenCloseCanRace`, on a stream being opened). In every run, a wait reports
  "closed" with an acknowledgement counted if and only if the flag is set when it is loaded and the counter
  was counted up between the two loads of that look (`AtomicWait.ClosedDespiteAck`); so it never does in a
  run that counts none within a look (`AtomicWait.NoAckWithinALook`). The model follows the code.
* The same document says that CLSE drops the stream's queue. The code drops only the sender, and
  payloads already queued are still returned; the model follows the code.
* `recv` loses a chunk exactly if the stream is usable and the writer is gone
  (`SessionTheorems.RecvLosesChunk`), and sessions get there (`SessionLoss.LossIsReachable`);
  `CallerReceivesInOrder` and `EndOfStreamMeansAll` therefore speak of a session whose writer lives.
* A failed post in `open_stream` leaves its registry entry behind (`SessionTasks.Session.OpenStream`).
* Printed content rows are read back if and only if they are clean (`ContentTheorems.RoundTripIffClean`).
* A sync FAIL in place of a stat reply or a directory entry would leave the stream out of step
  (`SyncSession.FailureMisaligned`). The emulated device never sends one.

## Assumptions

* Futures run to completion (a cancelled one is not modelled), and streams are registered only while the reader lives or closed by their
  owner. A stream registered after the reader stopped is covered by the invariant but not by the
  results that ask for a live reader.
* In `SessionSystem` a message the sink is writing counts as on the wire, and a turn of the device
  engine is one step. Service handlers are arbitrary: any replies, finished at any time.
* In `AtomicWait` the loads, stores and additions of all tasks happen in one order that every task sees, a
  sequentially consistent reading. The code asks for acquire and release only, which promises that order
  for each variable and what a release publishes, not across variables. The lock and `Notify` are taken
  as atomic: a permit is stored or consumed in one step.
* Clocks are not modelled: a timeout is an answer marked late.
* An input or a medium fails once and for all: behind what can still be read is the end or an error, and
  a medium takes a fixed number of further bytes or packets, or any number.

## Model

| member | source | states |
|---|---|---|
| Registry.StreamState.Ack | src/session/registry.rs:38-44 | An OKAY adopts the remote id only if none (0) is known, adds one acknowledgement and stores a wake-up; nothing else of the stream changes |
| Registry.StreamState.MarkClosed | src/session/registry.rs:74-78 | The stream is closed, its sender is gone, a wake-up is stored, queued payloads stay readable; doing it twice changes nothing |
| Registry.StreamState.Deliver | src/session/registry.rs:68-71 | A payload is queued at the end exactly if the sender and the receiver are still there, and the result says whether it was |
| Registry.Registry.Register | src/session/registry.rs:104-120 | Registration number k draws the id 1 + k mod (2^32 - 1), zero being skipped when the counter wraps, and maps it to a fresh stream |
| Registry.Registry.Remove | src/session/registry.rs:126-128 | The entry, if any, is returned and leaves the map; all other entries stay |
| Registry.Registry.CloseAll | src/session/registry.rs:131-136 | The map is emptied and every stream that was in it is marked closed |
| StreamIds.DrawsIdOf | src/session/registry.rs:106-109 | The wrapping counter gives registration k the id 1 + k mod (2^32 - 1), for every k; never zero |
| StreamIds.IdsRepeat | src/session/registry.rs:104-120 | Two registrations share an id exactly if their distance is a multiple of 2^32 - 1 |
| SessionTasks.Session.DispatchMessage | src/session/reader.rs:33-75 | One message changes only the stream it is addressed to, and each field of that as the command says; CLSE removes and closes. A WRTE nobody hears is answered with CLSE under the two ids of the WRTE, or stops the reader if the writer is gone; nothing else is ever posted, and only OPEN and STLS stop the reader otherwise |
| SessionTasks.Session.Read | src/session/reader.rs:17-31 | One turn of the reader: the message is taken and dispatched; on an error the reader stops and every registered stream is closed |
| SessionTasks.ReaderAgrees | src/session/reader.rs:17-75 | What the reader object does to a stream on one of its messages, and what it posts, a stop included, is the reader step of the single-stream machine |
| SessionTasks.Session.Sleep | src/session/registry.rs:55 | While an owner awaits, the reader goes on; the owner comes back only with a stored wake-up, and without one nothing about its acknowledgements or closing has changed |
| SessionTasks.Session.WaitAck | src/session/registry.rs:47-57 | Acknowledged exactly if the counter passed `seen`; closed exactly if it did not and the stream is closed; otherwise no message is left to wake the owner |
| SessionTasks.Session.PollWoken | src/session/registry.rs:47-57 | From a wake-up on: counter first, then flag, the wake-up consumed, parked again if neither |
| SessionTasks.Session.StartChunk | src/session/stream.rs:65-82 | Up to its wait: closed or without a remote id nothing is posted; else one WRTE under both ids, unless the writer is gone; the counter is taken before |
| SessionTasks.Session.WriteChunk | src/session/stream.rs:77-86 | Posts exactly one WRTE under the two ids, and is Ok exactly if a further acknowledgement has been counted, even if the stream was closed as well |
| SessionTasks.Session.SendOn | src/session/stream.rs:113-121 | From the top of the loop up to the next await, stream, registry, outbox, what is still to be sent and result are those of the step of the single-stream machine |
| SessionTasks.Session.SendWoken | src/session/stream.rs:77-121 | The same from a wake-up up to the next await |
| SessionTasks.Session.Send | src/session/stream.rs:113-121 | The payloads posted concatenate to a prefix of the data in non-empty WRTEs within the limit; Ok means all of it was posted and each chunk acknowledged; closed only on a stream that is closed or never opened; disconnected exactly if the writer was gone when the first chunk should have left; the loop ends |
| SessionTasks.Session.RecvChunk | src/session/stream.rs:103-111 | Takes the head of the queue, acknowledges it if the stream is usable, and loses it exactly if that OKAY cannot be posted; it is the `recv` step of the single-stream machine |
| SessionTasks.Session.CloseNow | src/session/stream.rs:88-99 | Closes once: deregisters and posts one CLSE under the known remote id if the writer runs; a closed stream is left untouched; it is the close step of the single-stream machine |
| SessionTasks.Session.Drop | src/session/stream.rs:129-133 | A dropped stream is closed and its queue goes with its receiver, as in the drop step of the single-stream machine |
| SessionTasks.Session.StartOpen | src/session/mod.rs:101-106 | Up to its wait, `open_stream` registers the stream and posts its OPEN as the open step does; if that fails the entry stays |
| SessionTasks.Session.OpenWoken | src/session/mod.rs:107-121 | From a wake-up on, `open_stream` does what the wake step does: go on waiting, succeed, or leave the registry refused |
| SessionTasks.Session.OpenStream | src/session/mod.rs:97-122 | A NUL in the name is refused before anything is registered; otherwise OPEN carries the name and a NUL, a stream comes back exactly if an OKAY with a non-zero remote id arrived first, a refused stream leaves the registry, a failed post leaves its entry behind |
| DeviceLoop.ChunkAll | tests/common/fake/engine.rs:102-115 | Replies are cut into non-empty pieces within the limit that concatenate to the replies |
| DeviceLoop.Engine.PumpOut | tests/common/fake/engine.rs:117-142 | At most one WRTE in flight; CLSE and removal only when the queue is empty and the handler finished |
| DeviceLoop.Engine.HandleMessage | tests/common/fake/engine.rs:39-99 | One turn of the device: OKAY or refusal for OPEN, one OKAY per WRTE taken, the next WRTE only after an OKAY, removal on CLSE; ids count up from 100 |
| DeviceEngine.TurnIs | tests/common/fake/engine.rs:47-142 | What one turn says and changes, message by message: OKAY or refusal first, then at most one WRTE, or CLSE when finished with nothing left |
| DeviceEngine.PiecesAreFull | tests/common/fake/engine.rs:102-115 | All pieces of a reply but the last are as large as allowed |
| SessionProjection.Projects | src/session/reader.rs:17-75 | Simulation: every step of a session with any number of streams is, seen by one stream, a step of the single-stream machine or none |
| StreamPreservedPeer.NextKeeps | src/session/registry.rs:38-79 | Every step of host, writer, device and reader keeps the invariant of one stream |
| SessionInvariant.StepKeeps | src/session/mod.rs:62-141 | Every step of the whole session keeps the invariant of every stream at once and the device ids distinct |
| SessionInvariant.ReachableGood | src/session/mod.rs:62-141 | The invariant holds in every reachable state of a session |
| SessionTheorems.OneWriteInFlight | docs/protocol.md:120-124 | In every reachable state each stream has at most one WRTE not yet acknowledged across outbox, both wires and device; none while no send runs on an open stream |
| SessionTheorems.OnePayloadBuffered | docs/protocol.md:120-124 | WRTEs on the way to the host, payloads in the queue and OKAYs on the way to the device are together at most one per stream |
| FlowControl.OneInFlightEachWay | docs/protocol.md:120-124 | For every device that acknowledges each OPEN or WRTE it has taken at most once, at any later time, and sends no WRTE before the OKAY for its last: in every run one request is pending at most, none on an idle open stream, and one payload towards the caller |
| FlowControl.StepIsMoves | tests/common/fake/engine.rs:39-142 | Every step of a stream with the device engine is a few moves of a device that keeps that rule |
| FlowControl.EngineIsAnInstance | tests/common/fake/engine.rs:39-142 | Every stream of every reachable session is in a state that such a run reaches |
| SessionTheorems.DeviceReceivesPrefix | src/session/stream.rs:113-121 | For every interleaving, what the device handler has received is a prefix of what was passed to `send` on that stream |
| SessionTheorems.SendOkMeansReceived | src/session/stream.rs:77-121 | When the wait from which `send` returns Ok ends, the handler has received every byte passed to `send` so far |
| SessionTheorems.CallerReceivesInOrder | src/session/stream.rs:103-111 | While the writer lives, chunks returned by `recv` then the queue are the payloads delivered, in order, and a prefix of what the service produced |
| SessionTheorems.EndOfStreamMeansAll | src/session/stream.rs:103-111 | After the device's CLSE `recv` returns None only when everything the service produced has been handed out |
| SessionTheorems.RecvLosesChunk | src/session/stream.rs:104-110 | `recv` loses the chunk it took if and only if the stream is usable and the writer is gone |
| SessionLoss.LossIsReachable | src/session/stream.rs:104-110 | For every configuration a session reaches a state where `recv` takes a payload off an open stream and does not return it |
| SessionTheorems.OwnerSpeaksProtocol | src/session/stream.rs:65-126 | The messages an owner posts form OPEN (WRTE or OKAY)* CLSE?, under one non-zero remote id, WRTEs non-empty and within the limit, together a prefix of the data sent |
| SessionTheorems.ReaderPosts | src/session/reader.rs:33-75 | In a session the reader posts exactly one CLSE(arg1, arg0) for a WRTE that no registered stream hears, while the writer is up, and nothing else; it stops exactly on OPEN, STLS, or such a WRTE without a writer |
| SessionTheorems.ReaderEffects | src/session/reader.rs:33-75 | A message changes only the stream it is addressed to: acknowledgements, remote id, closing, wake-up, queue and registration, field by field |
| SessionTheorems.ReaderStopped | src/session/reader.rs:28-30 | When the reader stops every registered stream is closed, woken and deregistered, with its queue kept |
| SessionTheorems.FreshWhileUnderLimit | src/session/registry.rs:104-120 | For the first 2^32 - 1 registrations of a session the id drawn is in use nowhere |
| SessionProgress.WaitIsAnswered | src/session/registry.rs:47-57 | A blocked owner with no acknowledgement on an open stream has its OPEN or WRTE under way, or the OKAY, or a CLSE |
| SessionProgress.InternalStepsWork | tests/common/fake/engine.rs:39-142 | Every step of writer, device or reader reduces a measure of the work under way, whatever the services reply |
| SessionProgress.InternalRunsEnd | tests/common/fake/engine.rs:39-142 | No schedule of writer, device and reader is longer than that measure |
| SessionProgress.NobodyIsStuck | src/session/registry.rs:47-57 | When nothing is left to do, every waiting owner has a permit and an answer, and the wait it wakes from ends |
| SessionProgress.WaitGoesOnRun | src/session/registry.rs:47-57 | Whatever else happens, a wait is not lost, its acknowledgements do not go back and a closed stream does not reopen |
| SessionProgress.OkayThenClose | docs/architecture.md:54-58 | If the OKAY answering a wait (non-zero remote id for an open) is dispatched first, the wait succeeds whatever follows before the owner wakes, a CLSE included |
| SessionProgress.CloseThenOkay | src/session/mod.rs:107-114 | If a CLSE is dispatched before any acknowledgement the wait fails, whatever follows |
| SessionLiveness.WaitEnds | src/session/registry.rs:47-57 | From every reachable state with writer and reader alive, every schedule that runs dry does so within the measure and leaves each waiting owner with an answer that ends its wait |
| SessionLiveness.ScheduleExists | src/session/reader.rs:17-87 | From every state there is such a schedule |
| SessionLiveness.InternalKeepsUp | src/session/reader.rs:33-75 | Nothing the device engine says stops the reader or the writer |
| SessionLead.StepLed | src/session/reader.rs:17-87 | Whatever a step is, other owners' calls included, what is ahead of a waiting stream's request or answer does not get more, and a turn of whoever has it gets it less |
| SessionLead.UsefulTurnExists | src/session/registry.rs:47-57 | As long as a wait is not answered the writer, the device or the reader can take such a turn |
| SessionLead.WaitIsBounded | src/session/registry.rs:47-57 | In every run in which the two tasks live, whatever other streams do, a wait lasts for fewer such turns than a bound fixed by the queues when it is looked at |
| SessionDelivery.NextDelivers | tests/common/fake/engine.rs:117-142 | Every step keeps: the device holds chunks back only behind a WRTE in flight, and that one, to an open stream, is on its way, in the queue, or its OKAY is on the way |
| SessionDelivery.NothingIsHeldBack | src/session/stream.rs:103-111 | Once writer, device and reader have nothing to do, `recv` on an open stream returns the next chunk the service produced, or all of them have been handed out |
| AtomicWait.NoLostWakeup | src/session/registry.rs:38-79 | With every atomic access a step of its own and any number of closing tasks: an owner parked without a permit, no task being between its update and its notification, has neither an acknowledgement nor a close to see |
| AtomicWait.WaitReturns | src/session/registry.rs:47-57 | Once all notifications are given, an acknowledged or closed wait returns within five steps of its owner |
| AtomicWait.ClosedDespiteAck | src/session/registry.rs:47-57 | In every run, the flag load of a look ends the wait as closed with an acknowledgement counted if and only if the flag is set then and an acknowledgement was counted between the two loads of that look |
| AtomicWait.NoAckWithinALook | src/session/registry.rs:47-57 | A run that counts no acknowledgement between the two loads of a look never reports closed with the counter beyond `seen` |
| AtomicWait.OkayThenCloseCanRace | src/session/registry.rs:49-54 | At this granularity "OKAY then CLSE" is false: on a new stream an OKAY and then a CLSE are dispatched between the two loads of one look, and the opening reports closed |
| AtomicWait.UninterruptedLook | src/session/registry.rs:49-54 | A look not interrupted between its two loads reports closed exactly if no acknowledgement was counted |
| AtomicWait.OpenSeesRemote | src/session/registry.rs:38-44 | A wait that succeeds finds the remote id stored |
| WireCodec.ComputeChecksum | src/wire/codec.rs:10-14 | The fold over the payload is the wrapping sum of its bytes |
| WireCodec.ChecksumIsSum | src/wire/codec.rs:10-14 | The 32-bit fold equals the unbounded sum of the bytes modulo 2^32 |
| WireCodec.OneByteChangeDetected | src/wire/codec.rs:10-14 | Changing one payload byte always changes the checksum |
| WireCodec.EncodeHeaderArray | src/wire/codec.rs:17-27 | The array filled word by word is the encoded header |
| WireCodec.HeaderRoundTrip | src/wire/codec.rs:17-63 | A header decodes to itself, or is refused for its length exactly if it exceeds the negotiated limit or 1 MiB |
| WireCodec.DecodeIsExact | src/wire/codec.rs:39-63 | Only the encoding of its result decodes to it |
| WireCodec.CodesRoundTrip | src/wire/command.rs:31-62 | A word is decoded to a command exactly if it is the code of that command |
| WireCodec.CommandOnWire | src/wire/command.rs:8-45 | A header starts with the four characters of its command |
| WireCodec.HeaderLayout | src/wire/codec.rs:17-27 | Arguments, length and check are at bytes 4, 8, 12 and 16, and the last four bytes are the first four complemented |
| WireCodec.DecodeErrors | src/wire/codec.rs:39-56 | Refused for the magic exactly if it is not the complement of the command word, else for the command exactly if the word is no command's, and for length only above a limit |
| Bytes.Le32IsLittleEndian | src/wire/codec.rs:17-33 | A word is written with its lowest byte first |
| Framed.Source.ReadExact | src/transport/framed.rs:79-84 | Exactly the next bytes whatever the fragments; if there are too few, the end of file or the error that is behind them |
| Framed.FramedReader.Recv | src/transport/framed.rs:75-115 | A fragmented stream gives the message or error of a parse of the whole remaining stream, and leaves the rest; a failing read is its own error, not an end |
| Framed.FramedWriter.Send | src/transport/framed.rs:37-47 | Nothing is written if the payload is too long for its length field; else the frame as far as the stream takes it, and Ok exactly if that is all of it and the flush succeeds |
| Framed.FrameRoundTrip | src/transport/framed.rs:36-105 | A frame within the limit is read back with the rest untouched, unless the reader checks what the writer did not compute and the sum is not zero |
| Framed.StreamRoundTrip | src/transport/framed.rs:74-115 | Every list of messages is reproduced, then Disconnected, or the truncation error of a cut header or payload, or the read error |
| Framed.CorruptionDetected | src/transport/framed.rs:97-102 | With checksums on, a message with one payload byte changed is refused |
| Framed.FrameLayout | src/transport/framed.rs:37-47 | A frame has both arguments, the length, and the byte sum modulo 2^32 or 0 as its check at their places, then the payload |
| Framed.ParsedIsFrame | src/transport/framed.rs:75-104 | An accepted message is what the bytes say, within both limits, and with the right check if that is looked at |
| Usb.UsbSink.Write | src/transport/usb/io.rs:78-84 | A transfer goes out as full packets and a shorter last one; it fails exactly if the endpoint does not take them all, which then has a prefix |
| Usb.UsbSink.Send | src/transport/usb/io.rs:66-101 | Header and payload are separate transfers, and nothing follows a failed transfer, whose error comes out; after a payload the last packet on the wire is shorter than the packet size |
| Usb.LastPacketIsShort | src/transport/usb/io.rs:88-101 | The packets of a message with a payload are header and payload and nothing else, and the last one is shorter than the packet size |
| Usb.TransferIsFull | src/transport/usb/io.rs:78-84 | All packets of a transfer but the last are full |
| Usb.UsbSource.Read | src/transport/usb/io.rs:106-111 | A request rounded up to whole packets completes when it is full or with the first short packet; the one that does not complete is the transfer that fails |
| Usb.UsbSource.ReadExact | src/transport/usb/io.rs:113-132 | Reads until the length is reached; an empty read is a short payload, too much is an error, and so is a failed transfer |
| Usb.UsbSource.Recv | src/transport/usb/io.rs:136-161 | Empty reads before a header are skipped, then header and payload are read and checked; a failed transfer is its error |
| UsbTheorems.RequestIsWhole | src/transport/usb/io.rs:107-108 | A read request is the least number of whole packets, at least one, that has room for the length asked for |
| UsbTheorems.ReceivesAll | src/transport/usb/io.rs:104-162 | However the peer cuts payloads into non-empty packets and however many empty packets it puts before headers, the list of messages comes out and no later packet is taken |
| UsbTheorems.SinkIsSuchAPeer | src/transport/usb/io.rs:77-102 | What the sink writes is such a packet stream, for every packet size |
| UsbTheorems.UsbRoundTrip | src/transport/usb/io.rs:77-162 | The source reads what the sink wrote, for every packet size and list within the limit, leaving only the packet that ends the last message and what follows |
| UsbTheorems.LargerReadCompletes | src/transport/usb/io.rs:95-100 | A peer that asks for more than the payload gets exactly the payload, and nothing of what follows |
| UsbTheorems.HeaderThenPayload | src/transport/usb/io.rs:136-161 | Any header with a payload of the announced length is received; a wrong check is the error exactly if it is looked at |
| UsbTheorems.ReceivedIsFrame | src/transport/usb/io.rs:104-162 | A received message is exactly what the packets taken say: 24 bytes of header, then the payload |
| UsbTheorems.RecvErrors | src/transport/usb/io.rs:113-145 | A first read that is no header, an empty read before the payload is whole, and a payload too long are each their own error |
| Montgomery.NewtonDoubles | src/auth/pubkey.rs:29-35 | A Newton step squares the modulus for which the inverse is correct |
| Montgomery.N0Inv | src/auth/pubkey.rs:29-35 | The five wrapping steps of the loop yield r with n0 * r = -1 mod 2^32 for odd n0 |
| Montgomery.N0InvIsUnique | src/auth/pubkey.rs:29-35 | No other word has this property |
| Montgomery.ReductionDivides | src/auth/pubkey.rs:7-9 | For all t, t + ((t * n0inv) mod 2^32) * n is divisible by 2^32 |
| PubKey.ToLePaddedArray | src/auth/pubkey.rs:37-48 | The little-endian bytes, padded with zeros to 256, or an error exactly if there are more |
| PubKey.EncodeKey | src/auth/pubkey.rs:51-81 | The buffer appended to field by field is the specified structure, with the same errors in the same order |
| PubKey.RrFits | src/auth/pubkey.rs:64-65 | R^2 mod n always fits 256 bytes for a 2048-bit modulus |
| PubKey.Encodable | src/auth/pubkey.rs:51-81 | A key can be encoded exactly if the modulus has 2048 bits and is odd and the exponent fits 32 bits |
| PubKey.KeyRoundTrip | src/auth/pubkey.rs:51-111 | An encoded key decodes to itself if the RSA implementation takes it |
| PubKey.DecodeIsExact | src/auth/pubkey.rs:84-111 | `decode` yields a key exactly for the encoding of that key, if it is valid |
| PubKey.EncodedConstants | src/auth/pubkey.rs:3-11 | The 524 bytes hold, at their places: 64; the negative inverse of the modulus modulo 2^32; the modulus; the remainder of 2^4096 by the modulus; the exponent |
| PubKey.RrConverts | src/auth/pubkey.rs:3-11 | A Montgomery product of any x with the encoded rr is x * 2^2048 modulo the modulus |
| PubKey.EncodeErrors | src/auth/pubkey.rs:51-74 | Each error of `encode` exactly under its condition: not of 2048 bits, even, exponent of more than 32 bits |
| PubKey.DecodeErrors | src/auth/pubkey.rs:84-112 | Wrong length, wrong number of words and an invalid pair are each reported exactly in that case |
| Channel.ChannelReader.ReadExact | src/channel.rs:86-94 | Exactly the next bytes of the stream however it is chunked; if there are fewer, the error of the stream and nothing is lost |
| Channel.ChannelReader.ReadU32 | src/channel.rs:97-100 | The little-endian word of the next four bytes |
| Channel.ChannelReader.NextChunk | src/channel.rs:103-108 | Buffered bytes first, then the next chunk; None only at the end |
| Channel.ChannelReader.ReadToEnd | src/channel.rs:111-116 | All bytes of the stream, or its error |
| ShellV2.Parser.Push | src/services/shell_v2.rs:69-92 | Yields the frames wholly contained in buffer and bytes and keeps the rest; an unknown id is an error and stays at the front |
| ShellV2.ChunksDoNotMatter | src/services/shell_v2.rs:69-97 | For every split the concatenated results are the frames of the whole string and the rest is its leftover; it fails exactly if the whole has an unknown id where a frame begins |
| ShellV2.StuckStays | src/services/shell_v2.rs:72-75 | Once a push has failed every later push fails |
| ShellV2.FramesRoundTrip | src/services/shell_v2.rs:51-92 | Encoded frames parse to themselves, and of a frame cut short nothing is reported |
| ShellV2.OutputBuffers.ApplyFrame | src/services/shell_v2.rs:113-120 | Standard output and error are extended, an exit frame sets the code to its first byte if any, other frames change nothing |
| ShellV2.OutputIsDemultiplexed | src/services/shell_v2.rs:113-120 | The fold of frames is the concatenation of each output stream and the last exit frame |
| ShellV2.CollectV2 | src/services/shell.rs:46-63 | The result is the fold of the frames of all bytes, whatever the chunks; rejected exactly for an unknown id, a failing channel or trailing bytes, in this order; the channel is closed on success |
| ShellV2.FrameText | src/services/shell_v2.rs:11-60 | A frame is its number from 0 to 5, the length as a little-endian word, and the data |
| ShellV2.OtherNumbers | src/services/shell_v2.rs:26-37 | No other number is a frame's, and behind one nothing is parsed |
| ShellV2.CollectedFrames | src/services/shell.rs:46-63 | Of encoded frames the outputs and the last exit code are collected; a failing channel comes before bytes left over, and a number that is no frame's before both |
| Quoting.QuotingRoundTrip | src/services/shell.rs:88-96 | Blank-joined quoted arguments are tokenised, by sections 2.2.1, 2.2.2 and 2.3 of the POSIX.1-2017 Shell Command Language, to exactly the arguments, for all strings |
| Quoting.QuotedOnlyIfNeeded | src/services/shell.rs:88-96 | An argument is left as it is exactly if it is not empty and has only letters, digits and -_./:=@, |
| Quoting.BuildContentCommand | src/services/content.rs:20-33 | The command assembled step by step is the fixed text with its quoted parts |
| Quoting.CommandIsTokenised | src/services/content.rs:20-33 | The shell sees the fixed words, the uri, the colon-joined projection if there is one, and the extra arguments |
| Content.ParseFields | src/services/content.rs:71-92 | Each column ends at the leftmost delimiter of the next one, the last takes the rest; the first missing column is the error |
| Content.ParseRows | src/services/content.rs:36-69 | Lines are folded into rows: row lines start a row, other lines continue the last value, empty lines and the notice are skipped, anything else is an error |
| ContentTheorems.ParsedRowsAreCounted | src/services/content.rs:95-97 | Every successful parse yields exactly as many rows as `count_rows` counts |
| ContentTheorems.ParsedRowsAreClean | src/services/content.rs:36-92 | Whatever was parsed, no earlier value hides the next column or has a newline, and the last value's lines could not be taken for rows or be trimmed |
| ContentTheorems.RoundTripIffClean | src/services/content.rs:36-92 | Printing a table and parsing it gives it back if and only if all its rows are clean in that sense, for every projection of distinct columns without newline and = |
| ContentPrinting.PrintedText | src/services/content.rs:3-9 | The printed text is `Row: `, the number, and the column=value pairs separated by a comma and a blank |
| ContentTheorems.OtherLines | src/services/content.rs:43-60 | A line that begins no row is skipped if it is empty or `No result found.`, else continues the last column of the last row after a newline, or is an error |
| ContentTheorems.RowLines | src/services/content.rs:62-66 | A row is read from behind the blank after its number; without one it is an error |
| ContentTheorems.FieldErrors | src/services/content.rs:69-92 | Which column is reported missing |
| ContentTheorems.TrimCrIsExact | src/services/content.rs:40 | Only carriage returns are trimmed, and all at the end |
| Handshake.Run | src/session/handshake.rs:40-128 | The loop plays the specified exchange against any device, with the same receives, messages and result; on success checksums are computed and verified exactly below version 0x01000001 and the payload limit is the agreed one, on failure the initial policy stays |
| Handshake.AnswerToken | src/session/handshake.rs:84-97 | The first token is answered with its signature, the second with the public key; nothing is sent if the key fails |
| Handshake.HandshakeIsBounded | src/session/handshake.rs:67-127 | At most 67 messages are received, at most 65 receives are timed, and they are timed exactly once the public key is out |
| Handshake.BoundsAreReached | src/session/handshake.rs:46-127 | There is a device for which both bounds are reached and the handshake succeeds |
| Handshake.HostSaysNoMore | src/session/handshake.rs:48-100 | The host sends CNXN with version 0x01000001 and 1 MiB, then at most one signature (type 2), of the first token (type 1), then at most one public key (type 3) |
| Handshake.HandshakeResult | src/session/handshake.rs:67-148 | The last answer decides, for every kind of message: success exactly for a timely greeting of a version not too old, agreeing on its banner, the lower version and its payload limit, but 1 MiB at most, and 256 KiB if it names none; every error has its cause |
| SyncCodec.EncodeStatV1 | src/services/sync/codec.rs:142-149 | The short reply is the id and three words: mode, size saturated at 2^32 - 1, time or 0 |
| SyncCodec.EncodeStatV2 | src/services/sync/codec.rs:152-168 | The long reply is the id and seventeen words in the order of the 72-byte layout |
| SyncCodec.StatV1RoundTrip | src/services/sync/codec.rs:91-149 | A short reply reads back mode, size saturated at 2^32 - 1, and the time if it is in 0..2^32 - 1, else 0 |
| SyncCodec.StatV2RoundTrip | src/services/sync/codec.rs:102-168 | A long reply reads back every field, signed times included; absent error and detail read as zeros |
| SyncCodec.IdsDiffer | src/services/sync/codec.rs:11-44 | No two ids are the same four characters |
| SyncCodec.IdIsItsName | src/services/sync/codec.rs:11-44 | Every id is spelled with its four characters |
| SyncCodec.StatV1Layout | src/services/sync/codec.rs:142-149 | Mode, size and time of a short reply at bytes 4, 8 and 12 |
| SyncCodec.StatV2Layout | src/services/sync/codec.rs:152-168 | Every field of a long reply at its place, low word first, negative times as two's complement |
| SyncDevice.DecimalRoundTrip | src/services/sync/mod.rs:205 | The decimal digits of a number are digits and have its value |
| SyncDevice.TargetRoundTrip | tests/common/fake/sync.rs:170-171 | `path,mode` is split back into path and mode whatever commas the path has |
| SyncDevice.SyncHandler.Request | tests/common/fake/sync.rs:124-188 | Each request has its reply and next state; unknown requests fail |
| SyncDevice.SyncHandler.ListDirectory | tests/common/fake/sync.rs:137-160 | One message per entry, header, name length and name, then a DONE padded to the length of a header |
| SyncDevice.SyncHandler.Write | tests/common/fake/sync.rs:94-98 | One write; OKAY and the new file system, or the failure and the old one |
| SyncDevice.SyncHandler.StepOnce | tests/common/fake/sync.rs:57-122 | One attempt takes one whole request, setup, data or done message off the buffer according to the state, or changes nothing |
| SyncDevice.SyncHandler.OnData | tests/common/fake/sync.rs:235-245 | New bytes are appended and the machine steps until it makes no progress |
| SyncDeviceTheorems.FeedIsWhole | tests/common/fake/sync.rs:235-245 | Chunks do not matter: state and replies are those for all bytes at once |
| SyncDeviceTheorems.PushIsOneWrite | tests/common/fake/sync.rs:87-108 | The bytes of a push at the front of the buffer are one write of that path, mode, time and content, one status, and idle again, whatever follows |
| SyncDeviceTheorems.PushReachesFile | src/services/sync/mod.rs:192-221 | For every path, mode, time and content in v1 and v2 form and every re-chunking, the device performs that one write and ends idle with an empty buffer |
| SyncClient.Client.Stat | src/services/sync/mod.rs:94-105 | Sends one request and takes exactly one fixed-length reply off the stream, or reports the wrong id; nothing is read if the request cannot be sent |
| SyncClient.Client.List | src/services/sync/mod.rs:108-137 | Reads entries up to DONE; FAIL, a wrong id or the end of the stream is the error; nothing is read if the request cannot be sent |
| SyncClient.Client.NextData | src/services/sync/mod.rs:140-161 | One DATA chunk within 64 KiB, None on DONE, the message on FAIL |
| SyncClient.Client.StartPull | src/services/sync/mod.rs:164-171 | Sends the request, and for v2 its setup word, as far as the channel takes them, or nothing if the path is too long; Ok exactly if all was sent |
| SyncClient.Client.Pull | src/services/sync/mod.rs:174-189 | A stream comes back exactly if the request was sent, and nothing has been read for it |
| SyncClient.PullStream.Next | src/services/sync/mod.rs:176-188 | The next chunk; an error is yielded once and ends the stream; nothing is read after the end |
| SyncClient.PullStream.Collect | src/services/sync/mod.rs:174-189 | The stream polled to its end yields the chunks up to DONE or the first error |
| SyncClient.Client.StartPush | src/services/sync/mod.rs:199-207 | Sends the head of a push in its v1 or v2 form as far as the channel takes it, or nothing if its argument is too long; Ok exactly if all was sent |
| SyncClient.Client.SendPieces | src/services/sync/mod.rs:208-218 | Sends all of the source as DATA messages of 1 to 64 KiB, in order; the first send that fails, or the error of the source behind its last byte, ends it |
| SyncClient.Client.Push | src/services/sync/mod.rs:192-221 | Sends the head, the source in non-empty pieces of at most 64 KiB that make up all of it, and DONE with the time, then reads the status; after a failed send or read nothing more is sent or read |
| SyncClient.Client.ReadStatus | src/services/sync/mod.rs:79-91 | OKAY with its word, or the failure, or an unexpected id |
| SyncClient.Client.Fail | src/services/sync/mod.rs:68-76 | The message of the announced length, or the error of the stream |
| SyncSession.CallSettles | tests/common/fake/sync.rs:57-208 | The device takes exactly the bytes of one call off its buffer and replies to it |
| SyncSession.CallAligned | src/services/sync/mod.rs:79-161 | The client takes exactly the reply to its call and gets what the device encoded |
| SyncSession.PullAligned | tests/common/fake/sync.rs:190-207 | A pulled file arrives in chunks that concatenate to its content, or as the failure |
| SyncSession.FailureAligned | tests/common/fake/sync.rs:41-45 | A failure message is read whole exactly if its length fits 32 bits |
| SyncSession.FailureMisaligned | src/services/sync/mod.rs:117-127 | A FAIL in answer to a listing or stat leaves the stream aligned only if it is as long as the reply expected; so it is excluded below |
| SyncSession.SessionIsAligned | src/services/sync/mod.rs:79-221 | For every sequence of stat, list, drained pull and push, under any chunking, the device serves the calls in order and ends idle, and each call of the client consumes its own reply and returns what the device had at that point |
| SyncOutcomes.CallShows | src/services/sync/mod.rs:94-221 | Every call returns, field by field, what the device has: names, modes, sizes, times (saturated and clamped in the short form), status details, file content in chunks of 64 KiB, the outcome of the write |
| SyncOutcomes.SessionShows | src/services/sync/mod.rs:79-221 | For every sequence of calls and every chunking, call k returns what the device has after the pushes before it, and the device ends idle with all pushes done |
| SyncOutcomes.RequestText | src/services/sync/codec.rs:58-76 | The bytes of every stat, list and pull request, in both forms |
| SyncOutcomes.PushHeadText | src/services/sync/mod.rs:199-207 | The bytes of the head of a push: mode in a setup message, or behind a comma in the argument |
| SyncOutcomes.PushBodyText | src/services/sync/mod.rs:208-219 | The bytes of every piece of a push and of its end |
| SyncOutcomes.DecimalIsPlain | src/services/sync/mod.rs:205 | The mode is written in decimal without leading zeros |
| SyncOutcomes.OtherStatus | src/services/sync/mod.rs:79-91 | A status with another id is reported with it, and only the id is taken |
| SyncOutcomes.OtherData | src/services/sync/mod.rs:140-161 | A chunk of up to 64 KiB is taken whole, a larger one refused, and so is another id |
| SyncOutcomes.OtherStat | src/services/sync/mod.rs:94-105 | A status reply of another id is refused, having been taken whole |
| SyncOutcomes.OtherEntries | src/services/sync/mod.rs:115-137 | A listing ends with DONE, fails with FAIL and its trimmed message, and is refused for another id |
| SyncOutcomes.TrimZerosIsExact | src/services/sync/mod.rs:121-125 | Only zeros are trimmed, and all at the end |
| SyncOutcomes.LinkRequest | tests/common/fake/sync.rs:126-135 | LST2 is answered like STA2 under its own id |
| SyncOutcomes.OtherRequests | tests/common/fake/sync.rs:183-186 | A request with an unknown id fails with the message for it |
| SyncOutcomes.SplitAtLastComma | tests/common/fake/sync.rs:169-178 | A push argument is split at its last comma, and a mode that is no number of 32 bits is 0o644 |
| SyncOutcomes.NoComma | tests/common/fake/sync.rs:170 | Without a comma the argument is all path and the mode 420 |
| SyncOutcomes.NumbersParsed | tests/common/fake/sync.rs:171 | A mode is digits, a plus sign in front or not, within 32 bits |
| SyncOutcomes.StuckDevice | tests/common/fake/sync.rs:57-122 | Less than eight bytes, QUIT, and anything but DATA and DONE while receiving take nothing off the buffer |

## Left out

- SessionSystem.Step: a local id is not drawn again while an earlier stream with that id is alive anywhere; `SessionTheorems.FreshWhileUnderLimit` shows that this cannot happen in the first 2^32 - 1 registrations. The device's own counter stops below 2^32.
- StreamModel.AckView: the acknowledgement counter is unbounded; the code's wraps after 2^64 OKAYs.
- SessionLiveness.WaitEnds: supposes that the device does not run out of ids during the schedule.
- SessionLead.UsefulTurnExists: likewise; the bound of `SessionLead.WaitIsBounded` itself does not.
- PubKey.Decode: whether (n, e) is accepted by the RSA implementation is a parameter.
- PubKey.EncodeKey: Base64 and the comment of a key line are not modelled.
- Usb.UsbSource.Read: the packet size is at least 1, as for every bulk endpoint.
- Handshake.Run: signing and the key's payload are functions that may fail; the banner is kept as bytes.
- SyncDevice.SyncHandler: the file system is a parameter (stat, list, read and write as functions of its state), so path rules of the in-memory one are not modelled; texts of error messages are parameters.
- SyncClient.Client: `quit` and the choice of features are not modelled.
- Quoting.Tokens: unquoted special characters and double quotes end the scan as unsupported; `quote` never produces them.
- Content.Lines: carriage returns at the end of a line are dropped by the parser in any case, so the one that `lines` drops first is not modelled apart.
- Strings are sequences of characters or bytes; lossy UTF-8 conversion is not modelled.
- Cancelled futures: the results suppose that a `send` or `open_stream` once called is awaited to its end.
- RSA signing, key generation, PEM, key files: unseen libraries.
- Device discovery, USB claiming and hotplug, TCP connect and endpoint strings: operating-system state.
- The adb-server client (`src/host`): length-prefixed text, weaker than the framing covered here.
- Device helpers, banner and getprop parsing, CLI and examples: easier members of kinds already covered.
- Task scheduling fairness and tracing.
