# Bluetooth API bridge: model and proofs

The integration carries passcode-protected packets between Home Assistant and a Bluetooth LE client
over three transports: a native GATT server, an ESPHome device reached over its API, and an ESP32 on
a USB serial line. This project models the layers of that stack in Dafny and proves what they promise
together. One module stands for one layer:

| module | layer |
|---|---|
| `Bytes`, `Sorting`, `Streams` | byte and bit strings, `sorted()` with a key, the asyncio stream reader |
| `Crc`, `Packet`, `CrcPeriod` | the CRC loop, the packet codec, and exactly which altered packets get through |
| `UsbFraming`, `UsbSerial` | length-prefixed framing with its resynchronising reader; the USB bridge |
| `BleChunks`, `GattServer`, `NativeRuns`, `NativeProgress` | chunking; the GATT server; runs of server, event loop and dispatcher; what gets done in them |
| `NativeTasks`, `NativeSession`, `NativeHearing` | conversations with the native bridge: overlapping handlers and pushes; what a client hears of them |
| `NativeReach`, `NextClient`, `WholeFrames`, `NextClientRuns` | what a client can receive of the conversation with an earlier one |
| `Varint`, `Noise`, `Esphome`, `EsphomeSession` | plaintext and Noise framing; concurrent senders over connections that come and go; replies end to end |
| `Exposure`, `Dispatcher`, `Replies`, `ReplyContents` | the exposure filter; dispatcher and state subscription; the reply protocol over sessions; what the packets say, in terms of the registries |

Objects that the source updates in place are classes with the same fields (`HaBleGattServer`,
`PacketDispatcher`, `UsbSerialServer`, `EsphomeApiServer`, `NativeBleServer`, `StreamReader`), and its
loops are methods with loops. Their contracts equate the new state with a function of the old one;
the theorems are about those functions and about every run built from them. What those functions
stand for is stated apart from them: in bytes and offsets, in fields of JSON, in terms of the registries, and as what every run
gets done. asyncio code is modelled
as steps that are atomic between two suspensions and may follow each other in any order.

Bytes are integers below 256, and the checksum register is a string of sixteen bits: `crc` itself is an
integer that the method XORs, shifts and masks as the loop in `protocol.py` does. The bitwise
or of the varint reader is the bitwise or of natural numbers, and proved to be a sum there. `BridgeUp`, `Begin` and the like are
single steps of the source's connection loops.

## What the theorems say about the code

* The magics and the checksum let an altered packet through exactly when the alteration spares the magics and is
  itself a multiple of the generator (`Packet.Undetected`). Hence all bursts of up to 16 bits and all odd
  numbers of flipped bits are caught, and two flipped bits are caught unless they lie a multiple of
  32767 bits apart, which takes a packet of at least 4100 bytes.
  Up to three flipped bits in a shorter packet are always caught. Seventeen bits are too many: the generator itself passes.
* The resynchronising reader delivers from the first plausible length field. Zero bytes in front
  of a frame, or an empty frame, are skipped exactly when the message is shorter than 256 bytes. Behind
  enough zeros a longer one is replaced by a shorter message: the reader locks on one, two or three bytes early and
  delivers the length bytes it skipped followed by the beginning of the message (`UsbFraming.ZeroPadding`).
* `send_frame` is not all-or-nothing: a frame refused for lack of room leaves as many continuing chunks
  behind as there was room for, and the client puts them in front of its next frame.
* `_rx_buf` outlives a disconnect, whether a poll or a failed notification reveals it, so the next client's
  first message arrives intact exactly if the previous client left nothing unfinished.
* A Noise payload over 65515 bytes that the cipher still encrypts spends a nonce without producing a frame; a peer
  that counts nonces reads nothing encoded after it, and recovers everything written exactly if no written frame was
  (`Esphome.PeerRecoversAllIff`). Whether such payloads exist depends on the longest plaintext the Noise library accepts,
  which is a parameter (`Cipher.maxPlain`).
* `_mark_disconnected` drains the TX queue so that the next client gets nothing of the previous one's last
  request. Tasks that outlive the connection defeat that: every chunk the next client receives belongs to it
  exactly if, when it connects, no service call is out, no completed packet is unhandled that will be
  answered, and no change is untold (`NextClient.ReceivesOwnIff`). `NextClientRuns.AnswerReachesNextClient` is a run in
  which a whole answer gets across; of an answer too large for the queue the first 62464 bytes do
  (`NextClientRuns.LargeAnswerReachesNextClient`).
* `UsbSerialServer.stop` removes the state listener but not the client flag; the two agree again when
  the bridge's `finally` block has run.
* The dashboard pass omits the exposure test when no exposure label exists. The documentation of
  `_handle_req_dashboards` promises it always; the code is what is modelled.

## Model

| member | source | states |
|---|---|---|
| Crc.Crc16Ccitt | custom_components/bluetooth_api/protocol.py:42-50 | The nested byte and bit loops compute what a bit-serial shift register with taps 12, 5, 0 holds after all message bits, started at all ones |
| Crc.FeedLinear | custom_components/bluetooth_api/protocol.py:42-50 | The register is linear: feeding the XOR of two messages from the XOR of two states gives the XOR of the results |
| Crc.FeedInjective | custom_components/bluetooth_api/protocol.py:42-50 | For any fixed message different register states stay different |
| Crc.FeedClears | custom_components/bluetooth_api/protocol.py:42-50 | Up to 16 bits bring a register to zero exactly when they are the bits it holds at its top, zeros below |
| Crc.EmptyChecksum | custom_components/bluetooth_api/protocol.py:42-50 | The checksum of nothing is FFFF |
| Packet.RoundTrip | custom_components/bluetooth_api/protocol.py:53-83 | Decoding inverts encoding for every passcode, command, payload and flags byte the encoder accepts |
| Packet.EncodedIff | custom_components/bluetooth_api/protocol.py:53-59 | The encoder takes exactly payloads up to 65535 bytes with a passcode, a command and flags that fit their fields; a payload too large is refused first |
| Packet.PacketLayout | custom_components/bluetooth_api/protocol.py:29-59 | Every byte of a packet by its place: AA BB, passcode, command, flags and payload length big-endian, payload, checksum of what lies between, CC DD |
| Packet.AcceptedLayout | custom_components/bluetooth_api/protocol.py:62-83 | A byte string is accepted exactly if marks, checksum and declared length are in those places, whatever the flags and surplus; passcode, command and payload are read from there |
| Packet.StrictPrefixRejected | custom_components/bluetooth_api/protocol.py:53-83 | No strict prefix of an encoded packet decodes: the code is prefix-free |
| Packet.Reencode | custom_components/bluetooth_api/protocol.py:53-83 | An accepted input equals its own re-encoding, flags included, exactly when its inner part has no surplus bytes; otherwise the re-encoding is strictly shorter |
| Packet.Residue | custom_components/bluetooth_api/protocol.py:42-59 | A message followed by its own checksum has checksum zero |
| Packet.ResidueIff | custom_components/bluetooth_api/protocol.py:42-59 | Two trailing bytes clear the register exactly when they are the message's checksum |
| Packet.ChecksumParity | custom_components/bluetooth_api/protocol.py:42-50 | The checksum has the bit parity of the message |
| Packet.AcceptedChecks | custom_components/bluetooth_api/protocol.py:62-83 | Decoding succeeds exactly when magics stand, the register comes out clear over inner part and checksum, and the declared payload length fits |
| Packet.Undetected | custom_components/bluetooth_api/protocol.py:62-75 | Magics and checksum of an altered packet still hold exactly when the alteration spares the magics and alone leaves the zero register at zero |
| Packet.BurstDetected | custom_components/bluetooth_api/protocol.py:42-83 | Any non-empty alteration within 16 consecutive bits of any accepted packet, magics included, is rejected |
| Packet.OddErrorDetected | custom_components/bluetooth_api/protocol.py:42-83 | Any odd number of flipped bits anywhere in an accepted packet is rejected |
| CrcPeriod.PeriodIff | custom_components/bluetooth_api/protocol.py:42-50 | x to the n is 1 modulo the generator exactly for multiples of 32767 |
| CrcPeriod.TwoBitsClear | custom_components/bluetooth_api/protocol.py:42-50 | Two set bits d apart clear the register exactly when 32767 divides d |
| CrcPeriod.TwoBitErrorUndetectedIff | custom_components/bluetooth_api/protocol.py:42-83 | Two flipped bits go unnoticed exactly when both spare the magics, their distance is a multiple of 32767, and the declared length still fits |
| CrcPeriod.ShortPacketTwoBitsDetected | custom_components/bluetooth_api/protocol.py:42-83 | In a packet of at most 4099 bytes two flipped bits are always noticed |
| CrcPeriod.LongPacketHidesTwoBits | custom_components/bluetooth_api/protocol.py:42-83 | Two payload or checksum bits exactly one period apart are never noticed |
| CrcPeriod.UpToThreeBitsDetected | custom_components/bluetooth_api/protocol.py:42-83 | One, two or three flipped bits anywhere in a packet of at most 4099 bytes are noticed |
| CrcPeriod.GeneratorBurstUndetectedIff | custom_components/bluetooth_api/protocol.py:42-83 | The seventeen-bit burst that is the generator goes unnoticed exactly when it spares the magics and the declared length still fits |
| CrcPeriod.GeneratorBurstPasses | custom_components/bluetooth_api/protocol.py:42-83 | Behind the length field it always goes unnoticed |
| UsbFraming.RfcommReadFrame | custom_components/bluetooth_api/protocol.py:105-129 | The sliding-window loop returns the outcome of the least plausible offset and consumes exactly the bytes that outcome takes |
| UsbFraming.DeliversFirstPlausible | custom_components/bluetooth_api/protocol.py:105-129 | A frame is delivered exactly from the least offset, at most 4096, whose four bytes are a length from 1 to 16 MiB, when that many bytes follow |
| UsbFraming.PlausibleIff | custom_components/bluetooth_api/protocol.py:99-121 | A length is plausible exactly if its four bytes, big-endian, say 1 to 16777216 |
| UsbFraming.FrameLayout | custom_components/bluetooth_api/protocol.py:132-134 | Four bytes of length, big-endian, then the message; no frame for a length that does not fit |
| UsbFraming.GivesUpIff | custom_components/bluetooth_api/protocol.py:113-128 | Resynchronisation fails exactly when 4100 bytes hold no plausible length, and has then read 4100 bytes |
| UsbFraming.StreamRecovered | custom_components/bluetooth_api/protocol.py:105-134 | A stream of frames, each behind noise in which no length is plausible, yields exactly its messages in order, whatever follows |
| UsbFraming.GarbageIsSilent | custom_components/bluetooth_api/protocol.py:108-116 | Up to 4096 bytes that are all at least 2 are such noise in front of any frame |
| UsbFraming.ZeroPadding | custom_components/bluetooth_api/protocol.py:117-134 | After up to 4096 zero bytes the reader locks on as many bytes early as the length has bytes in excess of one, limited by the zeros, and delivers exactly the skipped length bytes and message cut to the length divided by that power of 256; it finds the frame's own header exactly below 256 bytes |
| UsbFraming.PaddedSilent | custom_components/bluetooth_api/protocol.py:117-134 | Zero bytes are silent noise in front of a frame exactly when its message is shorter than 256 bytes |
| UsbFraming.EmptyFrame | custom_components/bluetooth_api/protocol.py:117-134 | What is delivered behind an empty frame, for every message and whatever follows: the message itself below 256 bytes, otherwise the skipped length bytes and message cut to fewer than 256 bytes |
| BleChunks.EncodeChunks | custom_components/bluetooth_api/protocol.py:143-152 | The loop, for chunk size 508 here and 244 in the GATT server, produces the recursive splitting of the data |
| BleChunks.ChunkShape | custom_components/bluetooth_api/protocol.py:143-152 | Every chunk but the last is full and begins with 00; the last is non-empty and begins with 01 |
| BleChunks.ChunkCount | custom_components/bluetooth_api/ble_gatt_server.py:485-494 | The number of chunks is the size divided by the chunk size, rounded up |
| BleChunks.ChunksDecoded | custom_components/bluetooth_api/protocol.py:143-157 | Joining the chunk payloads gives back the data, for every chunk size |
| BleChunks.FrameIsItsSegment | custom_components/bluetooth_api/ble_gatt_server.py:426-449 | A frame completed by a final write is the payloads written since the previous final write, joined behind what was buffered |
| BleChunks.ConversationDelivered | custom_components/bluetooth_api/ble_gatt_server.py:426-449 | Non-empty messages, chunked at any sizes, come out of an empty buffer unchanged and in order |
| GattServer.HaBleGattServer.SendFrame | custom_components/bluetooth_api/ble_gatt_server.py:93-107 | Queues the leading chunks that find room and reports whether that was all of them on a live connection |
| GattServer.HaBleGattServer.HandleWrite | custom_components/bluetooth_api/ble_gatt_server.py:426-449 | A write extends the buffer; a final one empties it and schedules the frame, behind a connect if the server was not connected |
| GattServer.HaBleGattServer.MarkDisconnected | custom_components/bluetooth_api/ble_gatt_server.py:397-421 | Lowers the flag, drains the queue and schedules the disconnect callback, once |
| GattServer.HaBleGattServer.TxTick | custom_components/bluetooth_api/ble_gatt_server.py:373-395 | One worker round takes one chunk; without subscribers it ends the connection |
| GattServer.HaBleGattServer.Poll | custom_components/bluetooth_api/ble_gatt_server.py:339-371 | A poll ends the connection exactly when devices were seen before, none is seen now and the server is connected |
| GattServer.SendAcceptedIff | custom_components/bluetooth_api/ble_gatt_server.py:93-107 | send_frame succeeds exactly when connected, with a server, and ceil(size / 244) chunks fit the free slots |
| GattServer.RefusedFrameLeavesPrefix | custom_components/bluetooth_api/ble_gatt_server.py:93-107 | A frame refused for lack of room fills the queue with exactly the free slots' worth of leading chunks, all continuing, so the client buffers that prefix |
| GattServer.LargestAcceptedFrame | custom_components/bluetooth_api/ble_gatt_server.py:93-107 | No frame over 62464 bytes is accepted, and with an empty queue every frame up to that is |
| GattServer.LargestAcceptedPayload | custom_components/bluetooth_api/ble_gatt_server.py:93-107 | The encoder takes payloads up to 65535 bytes, the native queue only up to 62450 |
| NativeRuns.StepKeeps | custom_components/bluetooth_api/ble_gatt_server.py:93-107 | Every step, in any state that satisfies it, keeps the invariant over queue, connection, history, pending callbacks and dispatcher |
| NativeRuns.EpochIsolation | custom_components/bluetooth_api/ble_gatt_server.py:373-413 | In every run a disconnected server holds no chunk, and every chunk given to the stack was queued in the connection it is given in |
| NativeRuns.ClientReceives | custom_components/bluetooth_api/ble_gatt_server.py:373-413 | Unless a notification failed, the client's frames are an initial stretch of those its connection's send_frame calls spell out, stubs of refused frames included |
| NativeRuns.AcceptedFramesArrive | custom_components/bluetooth_api/ble_gatt_server.py:93-107 | If all frames were accepted and no chunk lost, the client has a prefix of exactly those frames, and all of them once the queue is empty |
| NativeRuns.ReassemblyUndisturbed | custom_components/bluetooth_api/ble_gatt_server.py:426-449 | Completed frames and buffer depend on the writes alone, whatever sends, ticks, polls, callbacks and disconnects happen between |
| NativeRuns.MessagesDelivered | custom_components/bluetooth_api/ble_gatt_server.py:426-449 | Messages chunked at any sizes reach the loop unchanged and in order in any such run that starts from an empty buffer |
| NativeRuns.LeftoverReachesNextClient | custom_components/bluetooth_api/ble_gatt_server.py:373-449 | After any step that disconnects, the next client's first frame is the leftover followed by its message, so intact exactly if nothing was left |
| NativeRuns.DisconnectsIff | custom_components/bluetooth_api/ble_gatt_server.py:366-392 | A connection ends exactly by a poll that no longer sees a device or a chunk that finds no subscriber |
| NativeRuns.LeftoverOccurs | custom_components/bluetooth_api/ble_gatt_server.py:366-449 | Runs from the beginning in which a poll, or a notification without subscribers, disconnects with a byte left in the buffer |
| NativeRuns.DeferredConnection | custom_components/bluetooth_api/ble_gatt_server.py:397-449 | Running all pending callbacks brings the dispatcher's flag level with the server's; connects and disconnects alternate; frames run while connected and in order; with nothing pending a listener is live exactly while connected |
| NativeProgress.PollDisconnectsIff | custom_components/bluetooth_api/ble_gatt_server.py:339-371 | In every run a poll ends the connection exactly when it sees nobody and the poll before it saw somebody |
| NativeProgress.ConnectsIff | custom_components/bluetooth_api/ble_gatt_server.py:426-449 | A client is there exactly from the first frame a write completes once the loop is set |
| NativeProgress.NothingBeforeStart | custom_components/bluetooth_api/ble_gatt_server.py:426-449 | In every run without a start no client is there and no frame is handed on; completed ones are dropped whole, and the buffer is what the writes since leave |
| NativeProgress.CallbacksCatchUp | custom_components/bluetooth_api/ble_gatt_server.py:397-449 | From any state, as many callbacks as are scheduled hand over every completed frame and bring the dispatcher's flag level with the server's, and change nothing else |
| NativeProgress.AcceptedFramesAllArrive | custom_components/bluetooth_api/ble_gatt_server.py:373-395 | In every run, while a connection stands on which all frames were accepted and nothing was lost, as many deliveries as chunks wait give the client exactly the frames of the connection |
| NativeProgress.SentFrameArrives | custom_components/bluetooth_api/ble_gatt_server.py:93-107 | A frame sent on such a connection that finds room is then the last of them |
| NativeProgress.FailedChunkIsGone | custom_components/bluetooth_api/ble_gatt_server.py:373-395 | A chunk that could not be notified is not tried again; the rest of the queue stays |
| NativeRuns.NativeBleServer.RunCallback | custom_components/bluetooth_api/ble_gatt_server.py:515-630 | The oldest callback reaches the dispatcher: connect, disconnect, or a frame handed to the packet handler |
| NativeRuns.NativeBleServer.SendRaw | custom_components/bluetooth_api/ble_gatt_server.py:621-624 | Packets go to send_frame and its verdict is dropped |
| NativeSession.AfterKeeps | custom_components/bluetooth_api/ble_gatt_server.py:621-630 | Every move of a conversation, with overlapping handlers and pushed changes, keeps: each packet's replies and the changes stand in order, first replies in turn, and a connection's frames are the packets sent in it up to the first refusal |
| NativeHearing.ConversationShuffled | custom_components/bluetooth_api/dispatcher.py:89-144 | In every conversation the packets sent are a shuffle of each packet's own replies by its script and of the changes pushed; first replies, acknowledgements among them, come in order of arrival, and only an answer to CALL_SERVICE can be overtaken |
| NativeHearing.ClientHears | custom_components/bluetooth_api/ble_gatt_server.py:373-413 | Unless a chunk was lost, the frames a client reassembles up to the first refusal are the packets sent since it connected, in order, and all of them once the queue has drained |
| NativeHearing.ClientReassembles | custom_components/bluetooth_api/ble_gatt_server.py:93-107 | The attempts recorded of a connection are packets of the line sent in it, in order and none twice; unless a chunk was lost the client has an initial stretch of what they make it expect, stubs of refused frames included, and all of it once the queue has drained |
| NativeHearing.ClientHearsReplies | custom_components/bluetooth_api/ble_gatt_server.py:621-630 | With packets handled one at a time and no pushes they are a stretch of all replies and follow its script, from the beginning for the first client; a later client's stretch may begin with replies to an earlier one's packets |
| NativeHearing.HandlesWhatArrives | custom_components/bluetooth_api/ble_gatt_server.py:626-630 | The packets handled are in order the frames the clients' writes completed |
| NextClient.ReceivesOwnIff | custom_components/bluetooth_api/ble_gatt_server.py:404-413 | Whatever follows in a connection, refusals and losses included, all that is sent in it and every chunk its client receives belongs to packets completed and changes scheduled in it, exactly if at the connecting write no service call was out, no completed packet unhandled that will be answered, and no change untold that fits a packet |
| WholeFrames.HearsOnlyOwnIff | custom_components/bluetooth_api/ble_gatt_server.py:404-413 | The variant for whole frames: those the client hears before one of its connection is refused, as far as they are replies, answer packets completed in it, exactly if at the connecting write no service call was out and no completed packet unhandled whose next reply fits the queue; chunks of refused frames are not covered by it |
| NextClient.ClientsKeptApartIff | custom_components/bluetooth_api/ble_gatt_server.py:404-413 | The same as ReceivesOwnIff for the dispatcher's handlers, at any connecting write of any conversation |
| NextClientRuns.AnswerReachesNextClient | custom_components/bluetooth_api/dispatcher.py:298-316 | For every CALL_SERVICE whose answer fits the queue a conversation in which the only frame the next client hears is that answer |
| NextClientRuns.LargeAnswerReachesNextClient | custom_components/bluetooth_api/ble_gatt_server.py:93-107 | A run in which nothing that fits the queue is owed, and the next client still holds the first 62464 bytes of the earlier client's answer |
| NextClientRuns.DispatcherLargeAnswer | custom_components/bluetooth_api/dispatcher.py:298-316 | The same for every CALL_SERVICE whose answer is larger than that |
| NextClientRuns.AcknowledgementHeard | custom_components/bluetooth_api/ble_gatt_server.py:621-630 | For every request a conversation that begins with it and in which its acknowledgement is the first frame the client hears |
| NextClientRuns.ChangeHeard | custom_components/bluetooth_api/dispatcher.py:320-341 | For every state of a marked entity that fits the queue a conversation in which a client connects and the change to that state is the first frame it hears |
| NextClientRuns.NobodyToTell | custom_components/bluetooth_api/dispatcher.py:155-162 | In any conversation, with no client connected and no callback pending, a change of state leads to nothing |
| Dispatcher.PacketDispatcher.OnBleClientConnected | custom_components/bluetooth_api/dispatcher.py:148-153 | Raises the flag and subscribes, once |
| Dispatcher.PacketDispatcher.OnBleClientDisconnected | custom_components/bluetooth_api/dispatcher.py:155-162 | Lowers the flag and removes the listener, once |
| Dispatcher.PacketDispatcher.HandleIncomingPacket | custom_components/bluetooth_api/dispatcher.py:89-116 | Sends, calls and raises exactly what the specification of the reply protocol says for these bytes |
| Dispatcher.PacketDispatcher.Dispatch | custom_components/bluetooth_api/dispatcher.py:118-144 | A packet whose passcode was right is acknowledged, answered, refused or ignored command by command as the reply specification says; what that is, `ReplyContents.RequestAnswered`, `ServiceCalled` and `RejectionSays` say in terms of the registries |
| Dispatcher.PacketDispatcher.OnStateChanged | custom_components/bluetooth_api/dispatcher.py:326-339 | Schedules the pushes of the specification, which `ReplyContents.PushedIff` shows to be one that tells the new state if there is one and its entity is marked, and none otherwise |
| Dispatcher.PacketDispatcher.RunPush | custom_components/bluetooth_api/dispatcher.py:337-339 | The oldest such task sends its packet, or raises if it does not fit |
| Dispatcher.SubscriptionSafety | custom_components/bluetooth_api/dispatcher.py:148-162 | After any signals at most one listener is live, listens exceed removals by at most one, and a live listener implies a connected client |
| Dispatcher.SubscriptionSynced | custom_components/bluetooth_api/usb_serial_server.py:85-95 | Listener and client flag disagree exactly between a USB stop that found a client and the next disconnect |
| Replies.SilentReplies | custom_components/bluetooth_api/dispatcher.py:89-125 | A malformed packet or an ACK sends nothing, calls nothing and raises nothing |
| Replies.RejectedReplies | custom_components/bluetooth_api/dispatcher.py:99-144 | A wrong passcode or an unknown command calls no service and earns exactly one NACK, or raises without sending exactly when that NACK does not fit a packet |
| Replies.RequestReplies | custom_components/bluetooth_api/dispatcher.py:118-144 | A request is acknowledged first, then gets exactly one answer of its own kind unless its payload is ill-typed or the answer does not fit, in which case the handler raises; at most one service is called, and only for a CALL_SERVICE (`ReplyContents.ServiceCalled` says which) |
| Replies.SessionFollowsScript | custom_components/bluetooth_api/dispatcher.py:89-144 | Over any sequence of packets handled one at a time, what is sent follows, packet by packet, a script computed from packets, registries and outcomes |
| Replies.PacketFollowsScript | custom_components/bluetooth_api/dispatcher.py:89-144 | Handling raises exactly when a payload is ill-typed or a reply does not fit; then only a request's acknowledgement is sent |
| Replies.PushesInOrder | custom_components/bluetooth_api/dispatcher.py:326-341 | However changes and tasks interleave, packets pushed and pushes waiting are together what the changes call for, in order, and each packet says STATE_CHANGE (`ReplyContents.ChangesTold` says which changes, and what is told) |
| ReplyContents.KindIs | custom_components/bluetooth_api/dispatcher.py:118-144 | By bytes alone: requests are packets with the right passcode and a command 10, 12, 14, 20 or 22; what does not decode and ACKs are met with silence; everything else is turned away |
| ReplyContents.RequestAnswered | custom_components/bluetooth_api/dispatcher.py:164-316 | A request gets an empty packet with command 01, and unless handling raises a second one with the command after its own whose JSON says what was asked for: id, name and icon of every area; the marked entities of the area given, with every field; the dashboards with their views; the state with all its attributes, or a NACK that says it was not found or is not exposed; the outcome of the service call |
| ReplyContents.RejectionSays | custom_components/bluetooth_api/dispatcher.py:96-144 | Any other packet that is turned away gets one NACK whose text is `wrong passcode` or names the unknown command in two upper-case hexadecimal digits, unless that raises |
| ReplyContents.ServiceCalled | custom_components/bluetooth_api/dispatcher.py:298-307 | A service is called exactly for a CALL_SERVICE that permits it, and once: its domain and service are the fields of those names, its data the field `data` with `entity_id` put in if one is named and all else unchanged |
| ReplyContents.RequestRaises | custom_components/bluetooth_api/dispatcher.py:118-144 | Handling a request raises if its payload is no object, names an entity that is no text, or has data an entity cannot be put into, as far as the command looks at them; otherwise only if an answer to it is too large for a packet |
| ReplyContents.PushedIff | custom_components/bluetooth_api/dispatcher.py:326-339 | A change is told exactly if there is a new state and its entity is marked, by one STATE_CHANGE with that state's id, value, attributes and time |
| ReplyContents.ChangesTold | custom_components/bluetooth_api/dispatcher.py:326-341 | In every run of changes and tasks exactly the changes with a state of an entity marked at that time are told, each once and in order: first by the packets sent, one for each state that fits, then by the pushes that wait |
| ReplyContents.AllChangesTold | custom_components/bluetooth_api/dispatcher.py:326-341 | Once as many tasks have run as pushes were waiting, none waits and every such change that fits a packet has been told by one |
| Exposure.HandleReqDevices | custom_components/bluetooth_api/dispatcher.py:175-221 | The loop over the states, with its early return and its three skips, builds the list whose members, order and fields `Exposure.DevicesTruthful` states in terms of the registries |
| Exposure.HandleReqDashboards | custom_components/bluetooth_api/dispatcher.py:223-284 | The single pass that fills all buckets gives every DASH_ label what a separate pass for it would, and sorts by lower-case title; `Exposure.DashboardsOrdered` states the result in terms of the registries |
| Exposure.ExposedIff | custom_components/bluetooth_api/dispatcher.py:381-425 | An entity is exposed exactly when it is registered and the label registered as BTDASH or as BTDASHAA is among its entry's labels or those of its non-empty, registered device |
| Exposure.ExposureAgrees | custom_components/bluetooth_api/dispatcher.py:175-296 | An entity's state can be asked for exactly when it has one and the entity, by its entry or its device, carries BTDASH or BTDASHAA, which is exactly when ANS_DEVICES lists it without an area; an area filters by registry entry |
| Exposure.DevicesTruthful | custom_components/bluetooth_api/dispatcher.py:197-221 | ANS_DEVICES lists exactly the entities that have a state, carry BTDASH or BTDASHAA by entry or device and are of the area, each once, in state order, with their own state, domain, area, friendly name or id, slim attributes unchanged, and each label name as often as labels of that name are on entry or device, sorted |
| Exposure.DashboardAgrees | custom_components/bluetooth_api/dispatcher.py:254-274 | A dashboard is the sorted ids of the entities that carry its label by entry or device and, if BTDASH or BTDASHAA is registered, one of those too; if neither is, nothing is exposed or listed |
| Exposure.DashboardsOrdered | custom_components/bluetooth_api/dispatcher.py:264-284 | One dashboard for each DASH_ label and no other, with the label's id, its name without the prefix as title, the lower-case title as path and each entity on it once, sorted; ordered by lower-case title, ties in label order |
| Sorting.SortedSorts | custom_components/bluetooth_api/dispatcher.py:264-284 | Sorting orders by key, keeps the multiset and is stable |
| Sorting.AtMostIff | custom_components/bluetooth_api/dispatcher.py:264-284 | The order is that of code points: a prefix first, otherwise by the first character that differs |
| UsbSerial.WireHoldsWholeFrames | custom_components/bluetooth_api/usb_serial_server.py:103-186 | In every run the bytes written are whole frames of the messages taken off the queue, and while the worker lives the queue holds the frames after them |
| UsbSerial.UsbEndToEnd | custom_components/bluetooth_api/usb_serial_server.py:103-197 | In every run whose sends are non-empty and within the frame limit, the peer's reader recovers exactly the messages written, an order-preserving selection of those sent |
| UsbSerial.RoundWritesOldest | custom_components/bluetooth_api/usb_serial_server.py:168-186 | In every run a round of a living worker with something queued appends exactly the oldest frame to the wire and takes exactly it off the queue |
| UsbSerial.QueueDrains | custom_components/bluetooth_api/usb_serial_server.py:168-186 | As many such rounds as frames wait leave the queue empty and the wire as it was followed by all of them, in order |
| UsbSerial.QueueArrives | custom_components/bluetooth_api/usb_serial_server.py:103-197 | If all sends of the run are deliverable, the peer's reader then has every message queued on the connection |
| UsbSerial.SentArrives | custom_components/bluetooth_api/usb_serial_server.py:103-197 | Messages sent on a bridge that stands, with room for them, are after as many rounds as frames wait the last that the peer has read |
| UsbSerial.BridgeGreets | custom_components/bluetooth_api/usb_serial_server.py:142-148 | A bridge that comes up in any run has a living worker and just the framed restart message queued; one round later the peer has read exactly that |
| UsbSerial.FailedWriteSilences | custom_components/bluetooth_api/usb_serial_server.py:180-184 | After a failed write the worker is gone and the wire stays as it is, whatever follows up to the next bridge |
| UsbSerial.NothingDroppedBelowCapacity | custom_components/bluetooth_api/usb_serial_server.py:103-111 | If the queue was below 64 at every send, every message was queued |
| UsbSerial.FullQueueDrops | custom_components/bluetooth_api/usb_serial_server.py:103-111 | With 64 frames waiting a message is dropped and nothing else changes |
| UsbSerial.NoBridgeNoSend | custom_components/bluetooth_api/usb_serial_server.py:103-107 | Without a bridge a message changes nothing |
| UsbSerial.ServedDeliverable | custom_components/bluetooth_api/usb_serial_server.py:103-111 | Everything sent in reply over a session is non-empty, within the frame limit and not a control message |
| UsbSerial.DispatcherSendsDeliverable | custom_components/bluetooth_api/usb_serial_server.py:103-111 | If all sends of a run come from a dispatcher, as replies or as pushes, the end-to-end theorem applies to it and none is a control message |
| UsbSerial.PacketsAreNotControl | custom_components/bluetooth_api/usb_serial_server.py:188-197 | Nothing that starts like a control message decodes as a packet, so packets always take the packet branch |
| UsbSerial.ReaderLoop | custom_components/bluetooth_api/usb_serial_server.py:188-197 | The loop hands on every frame of the stream, in the order they came, as a control message or as a packet |
| UsbSerial.SubscriptionTended | custom_components/bluetooth_api/usb_serial_server.py:85-166 | In every run at most one listener, only with a client; no client without a bridge; none live once stopped; listener and flag agree until then |
| UsbSerial.ControlMeans | custom_components/bluetooth_api/usb_serial_server.py:199-215 | On a bridge that stands an object with type `client_connected` makes the client present and listened for, one with `client_disconnected` absent with no listener, and no other text changes anything |
| UsbSerial.NoBridgeAfterStop | custom_components/bluetooth_api/usb_serial_server.py:85-134 | After stop() nobody listens and no bridge comes up, whatever follows |
| UsbSerial.StopThenBridgeDown | custom_components/bluetooth_api/usb_serial_server.py:85-166 | stop() with a client present leaves the flag up without a listener; the end of the bridge turns both off |
| UsbSerial.UsbSerialServer.SendRaw | custom_components/bluetooth_api/usb_serial_server.py:103-111 | Queues the framed message, or drops it whole when 64 are waiting; raises when the length does not fit |
| UsbSerial.UsbSerialServer.WriteWorkerRound | custom_components/bluetooth_api/usb_serial_server.py:168-186 | Moves the oldest frame from the queue to the wire, or drops it and ends the worker when writing fails (`UsbSerial.RoundWritesOldest`, `UsbSerial.FailedWriteSilences`) |
| UsbSerial.UsbSerialServer.BridgeBegins | custom_components/bluetooth_api/usb_serial_server.py:142-148 | A new bridge starts with an empty queue holding the restart message |
| UsbSerial.UsbSerialServer.BridgeEnds | custom_components/bluetooth_api/usb_serial_server.py:155-157 | The end of a bridge drops the queue and reports the client gone |
| UsbSerial.UsbSerialServer.HandleControl | custom_components/bluetooth_api/usb_serial_server.py:199-215 | Text that does not parse is ignored, connection messages reach the dispatcher, other messages change nothing, and only a message that is no object raises |
| UsbSerial.UsbSerialServer.StopRequested | custom_components/bluetooth_api/usb_serial_server.py:85-89 | Stopping removes the listener and leaves the client flag |
| Varint.EncodeVarint | custom_components/bluetooth_api/esphome_server.py:70-77 | The loop produces the base-128 groups of the number, all but the last with the top bit set |
| Varint.ReadVarintFrom | custom_components/bluetooth_api/esphome_server.py:80-91 | The loop, which ors each group into place, reads the varint the stream starts with, leaves the rest unread, and raises after ten continued bytes |
| Varint.OrDisjoint | custom_components/bluetooth_api/esphome_server.py:86 | Oring in a group shifted beyond all bits of the value adds it |
| Varint.VarintRoundTrip | custom_components/bluetooth_api/esphome_server.py:70-91 | Reading inverts encoding below 2^70 with any suffix left unread, and fails for every larger number |
| Varint.VarintShortest | custom_components/bluetooth_api/esphome_server.py:70-91 | No byte string that reads as a number is shorter than its encoding |
| Varint.ReadVarintFailsIff | custom_components/bluetooth_api/esphome_server.py:80-91 | Reading raises exactly on ten bytes with the top bit set, and runs out exactly on fewer that are all there is |
| Varint.VarintLayout | custom_components/bluetooth_api/esphome_server.py:70-77 | One byte below 128; below 16384 the low seven bits with the top bit set, then the rest |
| Varint.ReadPlainFrom | custom_components/bluetooth_api/esphome_server.py:112-123 | Reads one plaintext frame off the stream and leaves the rest, with the source's error cases |
| Varint.PlainLayout | custom_components/bluetooth_api/esphome_server.py:109-110 | A short message is 00, its length, its type, its payload |
| Varint.PlainStreamReadBack | custom_components/bluetooth_api/esphome_server.py:109-123 | Any list of messages within the varint bound, framed one after another, is read back exactly |
| Noise.EncodesIff | custom_components/bluetooth_api/esphome_server.py:221-230 | A frame comes out exactly after the handshake, with a nonce left, for a type and length that fit two bytes and payloads up to 65515 bytes that the cipher accepts |
| Noise.NonceBurnedIff | custom_components/bluetooth_api/esphome_server.py:221-230 | A nonce is spent without a frame exactly for longer payloads that the cipher still encrypts; none exist if it stops at 65519 bytes of plaintext |
| Noise.FrameLayout | custom_components/bluetooth_api/esphome_server.py:221-230 | A frame is 01, the big-endian length of the ciphertext, and the ciphertext of type, length and payload |
| Noise.WrapLayout | custom_components/bluetooth_api/esphome_server.py:317-324 | A short packet travels as field 1 of message 151: 0A, its length, its bytes |
| Noise.StampCipherIsAead | custom_components/bluetooth_api/esphome_server.py:221-245 | Ciphers as the theorems below assume them exist, for every limit on the plaintext |
| Noise.ReadNoiseFrom | custom_components/bluetooth_api/esphome_server.py:232-261 | Reads one Noise frame off the stream under the receiver's nonce and leaves the rest |
| Noise.ReadNoiseIff | custom_components/bluetooth_api/esphome_server.py:232-261 | A message comes out exactly if the stream begins with 01 and a length it has the bytes for, they open under the nonce, and the length inside leaves room; it is then the bytes at that place |
| Noise.FrameReadBack | custom_components/bluetooth_api/esphome_server.py:221-245 | A peer at the sender's nonce recovers the message and goes on; at any other nonce it recovers nothing |
| Noise.PacketSizeLimit | custom_components/bluetooth_api/esphome_server.py:317-324 | Wrapped in its protobuf request and with a nonce left, a packet can be encoded exactly up to 65511 bytes, and the sizes beyond that spend a nonce are stated |
| Noise.PayloadSizeLimit | custom_components/bluetooth_api/esphome_server.py:221-324 | The packet encoder takes payloads up to 65535 bytes, the Noise path, with a nonce left, exactly up to 65497 |
| Esphome.StepKeeps | custom_components/bluetooth_api/esphome_server.py:328-420 | Every step keeps: on each connection, wire and then queue for the lock are all frames encoded, in encoding order |
| Esphome.WireOrder | custom_components/bluetooth_api/esphome_server.py:404-420 | In every interleaving each frame is written to the connection whose transport encoded it; wire and queue hold every message encoded, once, in encoding order; up to the first nonce spent without a frame the nonces are 0, 1, 2, ... |
| Esphome.PeerRecovers | custom_components/bluetooth_api/esphome_server.py:221-420 | A peer counting nonces recovers exactly the messages written, in encoding order, up to the first nonce spent without a frame and nothing after it |
| Esphome.BurnedIff | custom_components/bluetooth_api/esphome_server.py:221-230 | In every run a nonce of a connection is spent without a frame exactly by a send that met it with a payload over 65515 bytes the cipher accepted |
| Esphome.PeerRecoversAllIff | custom_components/bluetooth_api/esphome_server.py:221-420 | The peer recovers every message written exactly if no frame written was encoded after such a send |
| Esphome.NothingLostWithinLimit | custom_components/bluetooth_api/esphome_server.py:221-420 | With a cipher that stops at 65519 bytes of plaintext it always does |
| Esphome.MessageLost | custom_components/bluetooth_api/esphome_server.py:404-417 | With any other, a run in which the message after a payload too large is written and cannot be read |
| Esphome.PlainPeerRecovers | custom_components/bluetooth_api/esphome_server.py:109-420 | Over plaintext the peer reads every message written, in encoding order |
| Esphome.LineDrains | custom_components/bluetooth_api/esphome_server.py:414-417 | From any run, once the holder leaves and each waiting sender in turn takes the lock, writes and leaves, nobody waits, the lock is free, and every connection has what it had on its wire followed by all that waited for it |
| Esphome.EverythingEncodedArrives | custom_components/bluetooth_api/esphome_server.py:221-420 | The peer of a Noise connection has then read every message encoded for it, up to the first nonce spent without a frame |
| Esphome.SentIsWritten | custom_components/bluetooth_api/esphome_server.py:404-417 | A message that can be encoded on the connection that stands is then the last on its wire |
| Esphome.SessionsBeginUnsubscribed | custom_components/bluetooth_api/esphome_server.py:328-368 | Outside a session nobody is connected or subscribed; within one a listener is live exactly while a client is assumed |
| Esphome.SessionListens | custom_components/bluetooth_api/esphome_server.py:363-368 | In every run not stopped, a session that comes up makes a client present and listened for |
| Esphome.SessionEnds | custom_components/bluetooth_api/esphome_server.py:336-339 | When a session ends in any run, nobody listens, writer and transport are gone and every connection stays as it is |
| Esphome.NoSessionNoSend | custom_components/bluetooth_api/esphome_server.py:410-412 | Without a writer or a transport a message changes nothing and spends no nonce |
| Esphome.NextSession | custom_components/bluetooth_api/esphome_server.py:343-350 | The next session has a new connection with a transport at nonce 0, which after the handshake may encode; earlier connections stay as they are |
| Esphome.StopIsFinal | custom_components/bluetooth_api/esphome_server.py:299-341 | After stop() nobody listens ever again and no connection is begun, whatever follows |
| Esphome.EsphomeApiServer.BeginConnection | custom_components/bluetooth_api/esphome_server.py:343-345 | An iteration begins with a fresh transport and no writer |
| Esphome.EsphomeApiServer.ConnectionOpened | custom_components/bluetooth_api/esphome_server.py:347-348 | The writer is that of the connection just opened |
| Esphome.EsphomeApiServer.HandshakeFinished | custom_components/bluetooth_api/esphome_server.py:350 | The transport may encode from here on |
| Esphome.EsphomeApiServer.SessionBegins | custom_components/bluetooth_api/esphome_server.py:363-368 | The dispatcher is told that a client may be there |
| Esphome.EsphomeApiServer.SendMessage | custom_components/bluetooth_api/esphome_server.py:404-417 | Encodes at once, then writes if the lock is free and nobody queues, and queues otherwise; raises when encoding fails |
| Esphome.EsphomeApiServer.ReleaseLock | custom_components/bluetooth_api/esphome_server.py:414-417 | The writer that holds the lock lets it go, so that the next in the queue can write (`Esphome.LineDrains`) |
| Esphome.EsphomeApiServer.ResumeWaiter | custom_components/bluetooth_api/esphome_server.py:414-417 | The first in the queue takes the lock and writes to the connection it was encoded for |
| Esphome.EsphomeApiServer.EndConnection | custom_components/bluetooth_api/esphome_server.py:336-339 | The end of an iteration signals a disconnect and forgets writer and transport |
| Esphome.EsphomeApiServer.StopRequested | custom_components/bluetooth_api/esphome_server.py:299-301 | Stopping signals a disconnect |
| EsphomeSession.UnwrapsWrapped | custom_components/bluetooth_api/esphome_server.py:317-324 | The data field of a wrapped packet reads back |
| EsphomeSession.LogIsSent | custom_components/bluetooth_api/esphome_server.py:404-413 | If every payload sent on a Noise connection can be framed, its transport has encoded exactly the messages sent, in order |
| EsphomeSession.DeviceHearsReplies | custom_components/bluetooth_api/esphome_server.py:221-420 | If the requests sent on it carry a stretch of a dispatcher's replies, what the peer unwraps is an initial stretch of those and follows the script there, whatever other messages come between |
| EsphomeSession.DeviceHearsAll | custom_components/bluetooth_api/esphome_server.py:317-420 | Once nobody waits for the lock any more, the device has unwrapped every packet carried |
| Streams.StreamReader.ReadExactly | custom_components/bluetooth_api/protocol.py:117-128 | readexactly: the next n bytes, or an end of stream that loses what was left |

## Left out

* `NativeBleServer.stop` and `HaBleGattServer.stop`: native runs extend up to the stop.
* `_mark_disconnected` without an event loop: never reached, since a server only becomes connected once the loop is set.
* Adapter configuration over D-Bus and `bluetoothctl`, leak and firmware-update notifications, logging, `config_flow.py`, `api.py`, `button.py` and `__init__.py`. A poll enters as the set of connected addresses it reports.
* Real time: gaps, reconnect delays, pings and timeouts are steps that may happen at any point. The outcome of a service call, a timeout included, is an input.
* Cancellation and write failures inside `_send_message`: a sender that fails or is cancelled after encoding spends its nonce without a frame on the wire. The ESPHome reader loop beyond reading single messages is not modelled.
* The explicit `writer` argument of `_send_message` is only used during the handshake with the writer just opened, and is that connection here.
* The Noise handshake and its cryptography: the cipher is any pair of functions with a 16-byte tag under which, for nonces below 2^64 - 1, the right nonce opens and no other does. Real ciphers promise the latter only up to forgery. Beyond those nonces both directions refuse (Noise Protocol Framework, section 5.1). Protobuf beyond the one bytes field of a send request.
* JSON text: `json.dumps` and `json.loads` are parameters, and parse failure is the only thing said about them. Numbers are reals.
* Home Assistant's registries: maps with an iteration order and unique label ids. The lookup of a label by name is a map, so the registry's normalisation of names is not modelled; nor is the lower-casing of ids in `states.get`. `str.lower` is a parameter.
* A success answer to CALL_SERVICE that cannot be sent: the source would answer again with a failure from its `except` branch; here the handler raises. Such an answer is a fixed short text.
* `UsbSerialServer._drain`, reopening of the port, and the exceptions by which a handler can end `_reader_loop`: the end of a bridge is a step that may come at any time.
* Log and firmware-update control messages change nothing here; a run takes a connection message as the signal it carries.
* Home Assistant's answers to an overlapping handler: the registries a handler sees and the outcome of its service call are fixed when it begins. `Replies.SessionFollowsScript` and `EsphomeSession` take packets one at a time.
* The unit test at tests/bluetooth_api/test_protocol.py:59-63 predates the resynchronising reader, and the comment at custom_components/bluetooth_api/protocol.py:20 speaks of 244 bytes where `encode_ble_chunks` uses 508: the code is followed.
