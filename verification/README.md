# Goster-IoT: verified model of the downlink pipeline and its surroundings

This project models the parts of Goster-IoT whose guarantees no single function states, and proves
those guarantees with Dafny 4.11. `dafny verify dfyconfig.toml` checks all of it.

The modules follow the program:

- **Downlink commands over custom TCP.** `CommandQueue`, `CommandStore`, `DownlinkService`,
  `CoreIngress`, `Normalizer` and `TcpSession` model one object each: a class whose methods are proved
  equal to a function on values. `RequeueIdentity` follows one message through all of them. `Pipeline`
  puts those functions together as a step system with any number of connections. Its worlds carry a
  ledger (the place of each command id, and a log of pops and reports) that no step reads.
  `PipelineInvariant`, `PipelineTheorems`, `PipelineOrder` and `PipelineWords` prove what holds over
  every run. `TcpConnection` is the connection loop itself, from received bytes to written frames;
  `TcpConnectionTheorems` proves what it puts on the wire, `ConnectionRefinement` that it takes only
  pipeline steps, and `Conversations` which frames answer which packets and what a device is told.
  `CoreTheorems` says what the core's calls promise.
- **The Goster-WY codec.** `LittleEndian`, `Polynomials`, `Crc`, `CrcPolynomial`, `Crc32`, `Codec`, `CodecTheorems`,
  `WireFormat` and, for one payload format, `Metrics`. AES-GCM is a pair of functions with two laws.
- **Device tokens.** `DeviceTable`, `DeviceRegistry` and `DeviceLifecycle`: a token cache over a table.
- **Login protection.** `LoginAttempts` (lists compacted in place) and `LoginGuard` (whole histories).
- **Tenant invitations.** `Invitations` (operations that run alone), `InvitationRaces` (transactions that
  interleave) and `Memberships` (what they add up to).
- **Two text automata.** `SqlSplitter`; `MqttTopics`, `MqttIsolation` and `MqttInbound`.

Some statements that one might expect are not true of the code. Where that is so, the exact condition is
proved:

- Commands are settled in order as long as no pop takes a command of a device while another connection
  holds one, in particular with one live session per device. Polling an empty queue, or with a command
  in flight, does no harm. Every pop that does share a device can be followed by steps, none of them
  such a pop, that settle its commands in the wrong order (`PipelineOrder.ExclusivenessIsExact`).
- A downlink topic rendered for a device can be received by it exactly if the template ends in a name of
  downlink: under base/{uuid}/cmd nobody may subscribe to it (`MqttIsolation.DownlinkReaders`).
- A returned command is requeued exactly if its payload is nonempty; otherwise it is lost with its row
  left as it was (`RequeueIdentity.RequeueRestoresMessage`, `PipelineTheorems.LossesAreCounted`).
- A quoted SQL literal is read as SQL reads it exactly if no backslash stands before a quote or at its
  end (`SqlSplitter.FaithfulExactly`).
- At the very instant of expiry an acceptance passes its own check and is then rolled back
  (`InvitationRaces.ExpiredAcceptanceIsUndone`).

## Model

| member | source | states |
|---|---|---|
| `PipelineTheorems.Conservation` | `go/src/device_manager/message_queue.go:24-72` | in every reachable state, whatever connects, fails, overflows or is retried, each created command id has exactly one place, and the place is the truth: it is in that device's queue, held by that one connection, or final, exactly when the ledger says so |
| `PipelineTheorems.QueuedMessagesIntact` | `go/src/device_manager/downlink_command_service.go:24-57` | every message in any reachable queue is unaltered, still marked queued, under its own device, there only once, and the queue is within its capacity |
| `PipelineTheorems.LossesAreCounted` | `go/src/device_manager/message_queue.go:24-54` | over any run, one id is evicted per push into a full queue and one dropped per return without payload, and nothing else ever loses a command |
| `PipelineTheorems.NoLossWithoutOverflow` | `go/src/device_manager/message_queue.go:24-54` | as long as no push meets a full queue of its own device, a command that carries a payload is queued for that device, held, or settled, whatever other devices and other commands do |
| `PipelineTheorems.FinalRowsStay` | `go/src/storage/command/repository.go:76-110` | an acked or failed row is never written again by any run, although the update checks no transition; what a row asks for never changes |
| `PipelineTheorems.StepRows` | `go/src/web/ingress/service.go:185-213` | the only status changes any step makes are queued to sent or failed, sent to acked or queued, and no row disappears |
| `PipelineTheorems.RowsAreRequests` | `go/src/storage/command/repository.go:39-74` | the web requests that name a device and a command and come from the device's own tenant, and no others, become commands, numbered in their order; each row asks for what its request asked for, in every reachable state |
| `PipelineInvariant.StepKeepsInv` | `protocol-ingress/internal/adapter/customtcp/adapter.go:340-366` | every step of every interleaving keeps the joint invariant of queues, rows, sessions and ledger, and moves at most one command from one place to another |
| `PipelineInvariant.RunKeepsInv` | `protocol-ingress/internal/adapter/customtcp/adapter.go:340-366` | the joint invariant holds in every reachable state |
| `PipelineOrder.CommandsStayInOrder` | `protocol-ingress/internal/adapter/customtcp/session.go:249-274` | if no pop takes a command of a device while another connection holds one: queues stay in creation order, the held command comes before the whole queue, writes never go back, settled ids strictly increase, and nothing settled is written again |
| `PipelineOrder.OneSessionKeepsOrder` | `protocol-ingress/internal/adapter/customtcp/session.go:249-274` | all of this holds over every run in which a pop takes a command only while one live session pulls for its device, and no session is rebound to another device with a command in flight |
| `PipelineOrder.SharedPopBreaksOrder` | `protocol-ingress/internal/adapter/customtcp/session.go:249-274` | from any state that is in order, a pop that takes a command while another connection holds one of the same device can be followed by steps, none of them a shared pop, that settle the two in the wrong order |
| `PipelineOrder.ExclusivenessIsExact` | `protocol-ingress/internal/adapter/customtcp/session.go:249-274` | after a pop in a state that is in order, the order holds in every continuation without shared pops exactly if the pop itself is not shared |
| `PipelineOrder.TwoSessionsBreakOrder` | `protocol-ingress/internal/adapter/customtcp/session.go:493-502` | a concrete run with two sessions authenticated as one device reaches such a wrong order |
| `PipelineWords.ConnectionWords` | `protocol-ingress/internal/adapter/customtcp/session.go:203-247` | per connection the events spell POP REFUSED, POP RETURNED, POP WROTE ACKED, POP WROTE RETURNED in turn, the last possibly unfinished: at most one command in flight whatever the batch, sequence numbers increase, nothing held once closed |
| `PipelineWords.CommandWords` | `protocol-ingress/internal/adapter/customtcp/adapter.go:341-365` | per command the events spell such words too; it is final exactly after REFUSED or ACKED, marked sent while written, and written again only after it came back |
| `PipelineWords.AckNamesItsWrite` | `protocol-ingress/internal/adapter/customtcp/session.go:203-232` | an ack with sequence n settles the command its connection wrote with n, and no other write of the connection has n |
| `CommandQueue.DeviceCommandQueue.Enqueue` | `go/src/device_manager/message_queue.go:24-37` | appends at the tail; a full queue gives up its oldest message |
| `CommandQueue.DeviceCommandQueue.Requeue` | `go/src/device_manager/message_queue.go:39-54` | puts the message at the head; a full queue gives up its newest message |
| `CommandQueue.DeviceCommandQueue.Dequeue` | `go/src/device_manager/message_queue.go:56-72` | takes the head and removes an emptied queue from the table |
| `CommandQueue.CapacityHolds` | `go/src/device_manager/message_queue.go:39-54` | after any operations a queue of positive capacity is within it, so a retry is never refused and lands at the head |
| `CommandQueue.FifoUpToOverflow` | `go/src/device_manager/message_queue.go:24-72` | without retries, what left followed by what remains is a subsequence of what entered, and equal to it if nothing overflowed |
| `CommandStore.CommandRepository.CreateDeviceCommand` | `go/src/storage/command/repository.go:39-74` | inserts a queued row under the next id, or reports which check failed and inserts nothing |
| `CommandStore.CommandRepository.UpdateDeviceCommandStatus` | `go/src/storage/command/repository.go:76-110` | overwrites status and error of an existing row whatever its status was; execution time is set once a status is final |
| `DownlinkService.DownlinkCommandService.Enqueue` | `go/src/device_manager/downlink_command_service.go:24-41` | creates the row first and queues the message under its id, or does neither |
| `DownlinkService.DownlinkCommandService.PopDownlink` | `go/src/device_manager/downlink_command_service.go:43-46` | hands over the head of the device's queue and leaves the rows alone |
| `DownlinkService.DownlinkCommandService.Requeue` | `go/src/device_manager/downlink_command_service.go:48-58` | puts the message back before marking its row queued; a refused one is marked failed |
| `DownlinkService.DownlinkCommandService.MarkFailed` | `go/src/device_manager/downlink_command_service.go:76-81` | marks the row failed with the trimmed reason; an unset id is ignored |
| `CoreIngress.CoreService.PullCommands` | `go/src/web/ingress/service.go:153-183` | pops up to the requested number of messages of one device, oldest first, in canonical form; the device is the trimmed uuid, else the primary identity, else the first further identity that is a uuid |
| `CoreIngress.CoreService.UpdateCommandStatus` | `go/src/web/ingress/service.go:185-213` | turns each report into the matching status, expired into failed, and rejects unknown reports and unset ids |
| `CoreIngress.CoreService.Requeue` | `go/src/web/ingress/service.go:244-274` | rebuilds the message from the report and requeues it, or refuses if device, code or payload is missing |
| `CoreTheorems.FirstIdentityFound` | `go/src/web/ingress/service.go:319-326` | an identity is found by its kind whatever the capitals: the first of that kind, or nothing |
| `CoreTheorems.PullTakesPrefix` | `go/src/web/ingress/service.go:153-183` | a pull takes the oldest messages of one device, as many as asked for and at least one, tells all of each in order, and changes nothing else; it fails exactly if no device is named |
| `CoreTheorems.OperationNamesCode` | `go/src/web/ingress/service.go:409-424` | the operation name of a downlink code gives that code back at the adapter |
| `CoreTheorems.ReportWrites` | `go/src/web/ingress/service.go:185-213` | a report of progress writes its status, reason and mark of execution into that row alone, exactly if there is such a command |
| `CoreTheorems.RequeueReturns` | `go/src/web/ingress/service.go:244-274` | a report for requeueing puts the message to the head of the device's queue, at the cost of the newest if full, and marks its row queued; beyond its capacity the row fails instead, and one that lacks a part changes nothing |
| `RequeueIdentity.RequeueRestoresMessage` | `go/src/web/ingress/service.go:244-274` | a popped downlink message, through normalization and back, returns as the identical message to the queue it came from, whatever the session is bound to by then, exactly if its payload is nonempty |
| `RequeueIdentity.ImageResolves` | `protocol-ingress/internal/normalizer/normalizer.go:116-148` | the adapter maps a popped message to its own downlink code, or to none, and keeps its payload |
| `RequeueIdentity.RequeueParts` | `protocol-ingress/internal/adapter/customtcp/session.go:333-356` | device, code, payload and id of the requeue report equal those of the popped message |
| `TcpSession.TcpConnectionSession.PopCommand` | `protocol-ingress/internal/adapter/customtcp/session.go:249-274` | pulls at most one command, and none while one is in flight or before authentication |
| `TcpSession.TcpConnectionSession.MarkDownlinkSent` | `protocol-ingress/internal/adapter/customtcp/session.go:276-303` | keeps the command and its sequence number as in flight and reports it sent |
| `TcpSession.TcpConnectionSession.FailDownlink` | `protocol-ingress/internal/adapter/customtcp/session.go:305-331` | clears the slot if it holds this command and reports it failed |
| `TcpSession.TcpConnectionSession.RequeueDownlink` | `protocol-ingress/internal/adapter/customtcp/session.go:333-360` | clears the slot if it holds this command and reports it for requeueing |
| `TcpSession.TcpConnectionSession.RequeueInflight` | `protocol-ingress/internal/adapter/customtcp/session.go:362-368` | empties the slot and requeues what was in it |
| `TcpSession.TcpConnectionSession.HandleDownlinkAck` | `protocol-ingress/internal/adapter/customtcp/session.go:203-247` | settles the in-flight command only on its own command code and sequence number; any other ack changes nothing |
| `TcpSession.ReportEmptiesSlot` | `protocol-ingress/internal/adapter/customtcp/session.go:305-360` | a command that was reported failed or returned is in flight no more, and another one in flight stays as it is |
| `TcpSession.TcpConnectionSession.BindDevice` | `protocol-ingress/internal/adapter/customtcp/session.go:493-502` | binds device, tenant and identity and authenticates; the slot is left alone |
| `TcpConnection.Connection.HandleConnection` | `protocol-ingress/internal/adapter/customtcp/adapter.go:179-368` | the loop over buffers and counters equals the recursive description of a whole connection, including the requeue that runs however it ends; every frame given to the socket is the packed one |
| `TcpConnection.Connection.HandlePacket` | `protocol-ingress/internal/adapter/customtcp/adapter.go:213-337` | the authentication gate and the answer to each kind of packet |
| `TcpConnection.Connection.DeliverBatch` | `protocol-ingress/internal/adapter/customtcp/adapter.go:339-366` | delivers up to a batch of commands; a failed pack still uses its number, a failed write requeues and ends the loop |
| `TcpConnection.Connection.Send` | `protocol-ingress/internal/adapter/customtcp/adapter.go:400-406` | takes the next number, wrapped to 64 bits, packs and writes; a failed pack writes nothing |
| `TcpConnectionTheorems.NoncesNeverRepeat` | `protocol-ingress/internal/adapter/customtcp/adapter.go:229-359` | on one connection, with rekeys, failed packs and acks, two frames share a nonce exactly if a multiple of 2^64 numbers lies between them, sequences increase before that, and no frame has a nonce a device forms (section 8 of NIST SP 800-38D) |
| `TcpConnectionTheorems.GateHolds` | `protocol-ingress/internal/adapter/customtcp/adapter.go:213-217` | nothing but greetings leaves the server before the device was told that it is in, and after a handshake nothing but handshakes leaves without a key |
| `TcpConnectionTheorems.ServedKeepsWire` | `protocol-ingress/internal/adapter/customtcp/adapter.go:203-368` | serving any stream of bytes keeps numbering, direction, gate and key discipline of the frames written |
| `Conversations.ServedConverses` | `protocol-ingress/internal/adapter/customtcp/adapter.go:203-366` | serving any stream is a conversation: each packet is read under the secret agreed on before it and gets the answer due to it; a handshake gets the public key of its own exchange and the clock in the clear, a rekey its public key under the old secret, everything later goes out under the new one; commands go only to the device the core accepted last |
| `Conversations.DeviceIsServed` | `protocol-ingress/internal/adapter/customtcp/adapter.go:339-366` | a connection opened in any reachable state converses so; each command frame carries a command it popped, with code and payload of its row, and was logged as written with the frame's number or came back, as the socket decided; each logged write is such a frame |
| `Conversations.DeviceReads` | `protocol-ingress/internal/adapter/customtcp/adapter.go:348-352` | the device that has the key reads from such a frame the code, payload and number that the row asks for |
| `ConnectionRefinement.ServedRefines` | `protocol-ingress/internal/adapter/customtcp/adapter.go:179-368` | serving a connection to its end is a run of that connection's own pipeline steps to the same core and session, and from a reachable state the frames written and the events logged tell the same |
| `ConnectionRefinement.BatchRefines` | `protocol-ingress/internal/adapter/customtcp/adapter.go:339-366` | a batch of deliveries is a run of pops, writes, failures and returns of the pipeline |
| `Codec.Pack` | `protocol-ingress/internal/protocol/gosterwy/codec.go:17-71` | the buffer filled field by field is the specified frame: header with CRC-16, payload, CRC-32 or AES-GCM footer, or the error |
| `Codec.Unpack` | `protocol-ingress/internal/protocol/gosterwy/codec.go:97-174` | reads exactly one frame or reports which check failed, consuming what the original consumes |
| `Codec.BuildHeader` | `protocol-ingress/internal/protocol/gosterwy/codec.go:35-46` | the 32-byte header written with little-endian fields, nonce and check sum |
| `Codec.LawsAreConsistent` | `protocol-ingress/internal/protocol/gosterwy/codec.go:48-62` | the two laws assumed of AES-GCM, opening undoes sealing and sixteen bytes are added, have a model |
| `WireFormat.FrameOnWire` | `protocol-ingress/internal/protocol/gosterwy/codec.go:17-71` | what stands at each offset of every packed frame, in arithmetic on its bytes: magic, version, flags, little-endian fields, nonce, CRC-16 and, without a key, payload, little-endian CRC-32 and zeros |
| `WireFormat.UnpackReads` | `protocol-ingress/internal/protocol/gosterwy/codec.go:97-174` | a stream is accepted exactly if its bytes pass, in order of offset, the magic, CRC-16, length, and CRC-32 or seal checks; each field is the number at its offset, and exactly the bytes of the frame are taken |
| `CodecTheorems.RoundTrip` | `protocol-ingress/internal/protocol/gosterwy/codec.go:97-174` | a packed frame, plain or encrypted, followed by anything, unpacks to its packet and is consumed exactly |
| `CodecTheorems.StreamRoundTrip` | `protocol-ingress/internal/protocol/gosterwy/codec.go:97-174` | unpacking the concatenation of any frames under changing keys returns exactly their packets in order and leaves exactly the rest |
| `CodecTheorems.StrictPrefixFails` | `protocol-ingress/internal/protocol/gosterwy/codec.go:97-126` | every strict prefix of a frame gives an end-of-file error, never a packet |
| `CodecTheorems.PackSucceeds` | `protocol-ingress/internal/protocol/gosterwy/codec.go:17-71` | packing fails exactly for an oversized payload or an unusable key that would be used |
| `CodecTheorems.HeaderRead` | `protocol-ingress/internal/protocol/gosterwy/codec.go:97-131` | every header field written by Pack reads back and passes every check |
| `CodecTheorems.HeaderCheckIsResidue` | `protocol-ingress/internal/protocol/gosterwy/codec.go:103-111` | the header check is a zero CRC residue over bytes 0 to 29 |
| `CodecTheorems.HeaderBurstRejected` | `protocol-ingress/internal/protocol/gosterwy/codec.go:103-111` | a header altered only within sixteen consecutive bits of bytes 0 to 29, wherever they lie, is never accepted under any key |
| `CodecTheorems.PayloadBurstRejected` | `protocol-ingress/internal/protocol/gosterwy/codec.go:151-163` | a plaintext frame whose payload is changed within any thirty-two consecutive bits is rejected and consumed |
| `Crc.Crc16Modbus` | `protocol-ingress/internal/protocol/gosterwy/codec.go:176-189` | the loop over a running register computes the CRC function |
| `Crc.StepsInjective` | `protocol-ingress/internal/protocol/gosterwy/codec.go:181-186` | every number of bit steps is injective on the register |
| `Crc.CrcLinear` | `protocol-ingress/internal/protocol/gosterwy/codec.go:176-189` | the CRC of a bytewise sum is the sum of the CRCs |
| `Crc.ResidueIsZero` | `protocol-ingress/internal/protocol/gosterwy/codec.go:176-189` | appending two bytes gives residue zero exactly if they are the CRC, low byte first |
| `CrcPolynomial.CrcIsRemainder` | `protocol-ingress/internal/protocol/gosterwy/codec.go:176-189` | the CRC is the remainder of polynomial division, as section 6.2.2 of the MODBUS over Serial Line specification V1.02 defines it |
| `Polynomials.DivisionExact` | `protocol-ingress/internal/protocol/gosterwy/codec.go:176-189` | for any generator, quotient times generator plus remainder is the dividend |
| `Polynomials.RemainderUnique` | `protocol-ingress/internal/protocol/gosterwy/codec.go:176-189` | for any generator, no other short polynomial is a remainder |
| `CrcPolynomial.BurstDetected` | `protocol-ingress/internal/protocol/gosterwy/codec.go:176-189` | different messages whose bits differ only within sixteen consecutive ones, in the order of transmission, never share a CRC |
| `Crc32.ChecksumIsRemainder` | `protocol-ingress/internal/protocol/gosterwy/codec.go:64-67` | the complement of the CRC-32 sum is the remainder of dividing the message, its first thirty-two bits complemented, by the generator of IEEE Std 802.3, section 3.2.9 |
| `Crc32.BurstDetected` | `protocol-ingress/internal/protocol/gosterwy/codec.go:151-157` | two messages whose bits differ only within thirty-two consecutive ones never share a CRC-32 sum |
| `LittleEndian.GetPut` | `protocol-ingress/internal/protocol/gosterwy/codec.go:35-46` | a field reads back as the value written whenever it fits its width |
| `LittleEndian.PutGet` | `protocol-ingress/internal/protocol/gosterwy/codec.go:103-118` | every byte string is the encoding of the value it reads as |
| `Metrics.ParseMetricsPayload` | `protocol-ingress/internal/protocol/gosterwy/payload.go:33-68` | the loop over the blob yields one point per sample, or the first of the three errors |
| `Metrics.ParseUndoesEncode` | `protocol-ingress/internal/protocol/gosterwy/payload.go:33-68` | parsing undoes encoding of any batch, and refuses an encoded batch exactly for its sensor type |
| `Metrics.AcceptedIsEncoded` | `protocol-ingress/internal/protocol/gosterwy/payload.go:33-68` | every accepted payload is the encoding of exactly the batch read from it |
| `Metrics.TimestampsAdvance` | `protocol-ingress/internal/protocol/gosterwy/payload.go:37-64` | within the frame size and for starts in [0, 2^63 - 2^46) no int64 overflow occurs: timestamps are the intended arithmetic progression and never go back |
| `Metrics.NamesTellTypes` | `protocol-ingress/internal/protocol/gosterwy/payload.go:33-68` | every sample of an accepted payload carries the name and unit of its sensor, and two samples share a name exactly if their sensors have the same type |
| `DeviceTable.DeviceRepository.GetDeviceByToken` | `go/src/storage/device/repository.go:148-166` | finds the row that has the token, or there is none |
| `DeviceTable.DeviceRepository.SaveMetadata` | `go/src/storage/device/repository.go:78-93` | rewrites an existing row unless its token is taken; a missing row is no error |
| `DeviceTable.DeviceRepository.UpdateToken` | `go/src/storage/device/repository.go:168-186` | replaces the token of an existing row unless it is taken |
| `DeviceTable.DeviceRepository.DestroyDevice` | `go/src/storage/device/repository.go:35-60` | removes the row and with it what the metrics and logs tables hold of the device, or reports that there is no row and removes nothing |
| `DeviceRegistry.DeviceRegistryService.Authenticate` | `go/src/device_manager/device_registry_service.go:75-97` | answers from the cache, else from the table, caching only accepted devices |
| `DeviceRegistry.DeviceRegistryService.UpdateDeviceAuthenticateStatus` | `go/src/device_manager/device_registry_service.go:99-120` | forgets the cached token, then writes the status with a new, kept or no token |
| `DeviceRegistry.DeviceRegistryService.RefreshToken` | `go/src/device_manager/device_registry_service.go:122-131` | forgets the cached token, then stores the new one |
| `DeviceRegistry.DeviceRegistryService.ProvisionDevice` | `go/src/device_manager/device_registry_service.go:55-73` | creates an authenticated device with a token, or reports that it exists |
| `DeviceRegistry.DeviceRegistryService.DeleteDevice` | `go/src/device_manager/device_registry_service.go:157-169` | forgets the cached token and removes the row |
| `DeviceRegistry.CacheIsInvisible` | `go/src/device_manager/device_registry_service.go:75-131` | after any operations, including ones that failed on a taken token, authenticating any string with the cache gives what the table alone would say |
| `DeviceRegistry.StepKeepsCoherence` | `go/src/device_manager/device_registry_service.go:75-169` | each operation keeps every cached token the present token of an authenticated device |
| `DeviceRegistry.RetiredExactly` | `go/src/device_manager/device_registry_service.go:99-169` | a token is taken from its device by exactly a refresh, a deletion, or a change of status to anything but unknown |
| `DeviceRegistry.RetiredTokensStayDead` | `go/src/device_manager/device_registry_service.go:75-169` | a token so taken never authenticates again, whatever follows |
| `DeviceLifecycle.AnswersTellStatus` | `go/src/device_manager/device_registry_service.go:75-97` | after any operations a token is answered by the status of the one device that has it, each status by its own answer, and is invalid exactly if no device has it |
| `DeviceLifecycle.StatusIsWritten` | `go/src/device_manager/device_registry_service.go:99-120` | a change of status writes that status with a drawn, kept or no token and answers with it, fails exactly if the device is missing or the token belongs to another, and changes no other row |
| `DeviceLifecycle.NewDeviceIsWritten` | `go/src/device_manager/device_registry_service.go:49-73` | a registered device waits without a token, a provisioned one is in with the token drawn for it; no row is changed |
| `DeviceLifecycle.ApprovedAuthenticates` | `go/src/device_manager/device_registry_service.go:75-131` | after an approval, a provisioning or a new token for an authenticated device, that token authenticates the device at once and as long as its status and token are left alone |
| `LoginAttempts.Attempts.Compact` | `go/src/web/v1/login_attempt_store_memory.go:53-60` | moving the kept times to the front of the same array leaves exactly the times after the cutoff, in order |
| `LoginAttempts.InMemoryLoginAttemptStore.PrunedState` | `go/src/web/v1/login_attempt_store_memory.go:50-69` | prunes failures and lock of one key and removes an empty entry; every other key is untouched |
| `LoginAttempts.InMemoryLoginAttemptStore.RecordFailure` | `go/src/web/v1/login_attempt_store_memory.go:30-41` | appends the failure to the pruned list and locks at the limit; every other key is untouched |
| `LoginAttempts.InMemoryLoginAttemptStore.Snapshot` | `go/src/web/v1/login_attempt_store_memory.go:22-28` | returns the pruned state of the key |
| `LoginGuard.LoginAttemptGuard.Allow` | `go/src/web/v1/login_guard.go:62-72` | refuses exactly while the pruned lock lies ahead, with the time left |
| `LoginGuard.KeysAreIndependent` | `go/src/web/v1/login_attempt_store_memory.go:22-69` | in any mix of calls for many keys, each key's entry is what its own history alone leaves |
| `LoginGuard.StoreRemembers` | `go/src/web/v1/login_attempt_store_memory.go:22-69` | the pruned state equals the failures in the window and the lock of the latest full window of the whole history |
| `LoginGuard.GuardRefinesHistory` | `go/src/web/v1/login_guard.go:62-80` | under a clock that never goes back, an attempt is refused exactly if some failure since the last reset completed a full window less than a lockout ago |
| `LoginGuard.RetryAfterIsExact` | `go/src/web/v1/login_guard.go:62-87` | without a new failure an attempt is admitted exactly once the time told is over; the advertised seconds are enough and no fewer are |
| `LoginGuard.GuardedFailuresBounded` | `go/src/web/v1/login_guard.go:62-76` | with lockout at least the window and only admitted attempts recorded, the list never exceeds the limit and no interval of window length between resets holds more failures |
| `Invitations.TenantRepository.AcceptInvitation` | `go/src/storage/tenant/repository.go:349-386` | writes the membership first and keeps it only if the conditional update finds its row; otherwise nothing changes |
| `Invitations.TenantRepository.RejectInvitation` | `go/src/storage/tenant/repository.go:388-418` | rejects a pending invitation, or reports why not and changes nothing |
| `Invitations.TenantRepository.CreateTenantInvitation` | `go/src/storage/tenant/repository.go:259-303` | inserts a pending invitation of one week, or reports which check failed |
| `Invitations.TenantRepository.AddTenantUser` | `go/src/storage/tenant/repository.go:211-236` | inserts the membership or changes the role of an existing one, keeping when it began |
| `Invitations.TenantRepository.RemoveTenantUser` | `go/src/storage/tenant/repository.go:238-257` | removes exactly that membership or reports that there is none |
| `Invitations.TenantRepository.ListPendingInvitations` | `go/src/storage/tenant/repository.go:305-327` | lists exactly the user's pending invitations that expire later than now, each once, the newest first |
| `Invitations.ListedIsAcceptable` | `go/src/storage/tenant/repository.go:305-327` | an invitation is listed exactly if it is the user's own and accepting it at that moment would succeed, the instant of expiry included |
| `InvitationRaces.RacesAreSerializable` | `go/src/storage/tenant/repository.go:349-418` | interleaved acceptances, rejections and other changes leave the tables that their committed operations leave one after the other |
| `InvitationRaces.InvitationsSettleOnce` | `go/src/storage/tenant/repository.go:349-418` | each invitation is settled by at most one committed transaction, which gives it its status and the time of its last update; until then it is pending and as it was issued |
| `InvitationRaces.CommitsAsIfAlone` | `go/src/storage/tenant/repository.go:364-384` | each commit or rollback has the outcome and effect the whole operation would have alone at that moment |
| `InvitationRaces.ExpiredAcceptanceIsUndone` | `go/src/storage/tenant/repository.go:360-382` | from the instant of expiry on, an acceptance that already wrote its membership changes nothing |
| `InvitationRaces.FailureLeavesNoTrace` | `go/src/storage/tenant/repository.go:349-418` | cutting all steps of an unsuccessful transaction out of a run changes neither the tables, nor the log, nor any other transaction |
| `InvitationRaces.EarlyEndings` | `go/src/storage/tenant/repository.go:349-418` | a transaction that ends before its commit ends with the error that the whole operation gives for the row that it read, whenever it is given |
| `Memberships.MembersFollowLog` | `go/src/storage/tenant/repository.go:211-257` | in any race a user is a member exactly if an accepted invitation or an effective addition made him one and no later removal ended that; the role is the one last given, and the membership began with the first of these since the last removal |
| `Memberships.InvitationsFollowLog` | `go/src/storage/tenant/repository.go:259-303` | in any race the invitations are those issued with user, inviter and an existing tenant, each with the terms asked for and valid for seven days |
| `SqlSplitter.SplitSQLStatements` | `go/src/dbschema/migrate.go:162-202` | the scanning loop with its builder computes the split |
| `SqlSplitter.JoinThenSplit` | `go/src/dbschema/migrate.go:162-202` | joining a list by semicolons and splitting gives it back exactly if its members are nonempty trimmed statements without a semicolon outside quotes, quotes closed in all but the last |
| `SqlSplitter.SplitIsStable` | `go/src/dbschema/migrate.go:162-202` | rejoining and splitting again any script's statements changes nothing |
| `SqlSplitter.FaithfulExactly` | `go/src/dbschema/migrate.go:256-258` | the scanner stays inside a quoted literal to its end and leaves it there exactly if no backslash precedes a quote or ends the value |
| `SqlSplitter.LiteralIsToken` | `go/src/dbschema/migrate.go:256-258` | the literal of such a value, whatever quotes and semicolons it holds, is never split and leaves the scanner outside quotes |
| `SqlSplitter.LiteralNeverSplits` | `go/src/dbschema/migrate.go:154-156` | inserted into a statement it neither splits it nor changes how the rest is read |
| `SqlSplitter.QuotedReadsBack` | `go/src/dbschema/migrate.go:256-258` | read by the rule that two quotes stand for one, the quoted literal is the value it was made from, and ends where the text after it begins |
| `SqlSplitter.TrailingSlashSwallows` | `go/src/dbschema/migrate.go:170-195` | a value that ends in a backslash leaves the quotes open and swallows the statements after it |
| `MqttTopics.FindTopicRest` | `protocol-ingress/internal/adapter/mqtt/mapper.go:401-413` | compares level by level and returns the levels below the base, or none |
| `MqttTopics.RenderDownlinkTopic` | `protocol-ingress/internal/adapter/mqtt/adapter.go:594-611` | replaces the placeholders one after the other in whatever order and trims slashes |
| `MqttTopics.SubscriptionsHaveNoWildcards` | `protocol-ingress/internal/adapter/mqtt/broker.go:202-227` | a filter accepted for subscribing contains no wildcard, if base and uuid contain none |
| `MqttTopics.SubscriptionLevels` | `protocol-ingress/internal/adapter/mqtt/broker.go:202-227` | such a filter consists of the base, the session's own uuid and a level that means downlink |
| `MqttTopics.PlainFilterMatches` | `protocol-ingress/internal/adapter/mqtt/broker.go:202-227` | under section 4.7 of MQTT 3.1.1 a filter without wildcards matches only itself |
| `MqttTopics.LevelsJoin` | `protocol-ingress/internal/adapter/mqtt/mapper.go:415-421` | splitting a topic into levels loses nothing |
| `MqttIsolation.SubstitutesOne` | `protocol-ingress/internal/adapter/mqtt/adapter.go:594-611` | whatever order the runtime picks, a template with one placeholder for the device or its tenant gets exactly that one there, and nothing else changes |
| `MqttIsolation.TopicReaders` | `protocol-ingress/internal/adapter/mqtt/broker.go:202-227` | whatever the topic, a session may subscribe to a filter that matches it exactly if the topic is the base, that session's uuid and a level that means downlink |
| `MqttIsolation.TopicWriters` | `protocol-ingress/internal/adapter/mqtt/broker.go:202-227` | below the device base a session may publish exactly two levels down, its own uuid and one of the listed report names; elsewhere anywhere below the bridge base and nowhere else |
| `MqttIsolation.DownlinkReaders` | `protocol-ingress/internal/adapter/mqtt/adapter.go:594-611` | a downlink rendered from base/{uuid}/ending, in whatever order, can be received by the device's own session alone, and by that one exactly if its uuid is one level and the ending is a name of downlink |
| `MqttInbound.AdapterEvent.ApplyConnectionPrincipal` | `protocol-ingress/internal/adapter/mqtt/adapter.go:227-268` | imposes the connection's device and tenant on the event, field by field, or reports a mismatch |
| `MqttInbound.HandleMessage` | `protocol-ingress/internal/adapter/mqtt/adapter.go:183-225` | maps, pins and checks the token of one message; the event forwarded, or the error |
| `MqttInbound.PublishIsPinned` | `protocol-ingress/internal/adapter/mqtt/adapter.go:183-268` | a message the broker let a session publish below the base is forwarded as the session's own device and tenant, and is forwarded exactly if it has no token or one accepted for that device and tenant; a uuid named in the payload only heads the list of further identities, beside the session's own |
| `MqttInbound.BridgeIsForwarded` | `protocol-ingress/internal/adapter/mqtt/mapper.go:135-191` | a message of the Zigbee bridge is forwarded for the device its topic names, in the session's own tenant and as no other device; only the bridge's own topics are dropped |
| `MqttInbound.TokenDecides` | `protocol-ingress/internal/adapter/mqtt/adapter.go:183-225` | a message without a session identity is forwarded exactly if its token is accepted and agrees on the tenant, and then as the token's device and tenant |

## Left out

- Pipeline.Next: remote calls are atomic and reliable, because a lost reply to a pull really loses its command; a shutdown that cancels the calls of the final requeue is not modelled either.
- Pipeline.World: the write counter does not wrap, so runs stay below 2^64 frames per connection; `TcpConnection` models the wrap, and `ConnectionRefinement` asks for fewer frames than that.
- ConnectionRefinement.ServedRefines: one connection is served with no other step in between; the pipeline itself interleaves the steps of all connections freely.
- CommandStore.CommandRepository.UpdateDeviceCommandStatus: the time of execution is kept as whether it was set; the rejection of status texts outside the four is not needed, as statuses are a datatype.
- DownlinkService.DownlinkCommandService.Enqueue: the branch for a failing queue is left out, because the in-memory queue never fails to take a message.
- TcpSession.ResolveDownlinkCmd: a command code given as text in the options is left out; the core sends it as a number.
- TcpSession.TcpConnectionSession.PopCommand: the branches for a missing core client or normalizer are left out.
- TcpConnection.Connection.HandleConnection: deadlines, the idle watcher, logging and the forwarding of telemetry are left out; the answers of the core to authentication and registration, key exchanges, clock and socket outcomes are parameters.
- Codec.Lawful: AES-GCM, X25519, HMAC and SHA-256 are not modelled beyond the two laws; nothing is claimed about forged ciphertexts.
- Metrics.ParseMetricsPayload: sample values stay 32-bit words, the conversion to floating point is left out; log and registration payloads would only add easy members.
- DeviceRegistry.Next: each registry operation is one step; an authentication between the cache delete and the row update of another operation can cache a token that is about to be retired.
- DeviceRegistry.RetiredTokensStayDead: that drawn tokens are fresh is a condition on the run, standing for the random generator; device descriptions, hooks and listings are left out.
- LoginAttempts.InMemoryLoginAttemptStore.RecordFailure: keys are interned numbers, because the store only compares them; how a key is built from user name and address is left out, and so are locking and overflow of durations.
- LoginGuard.RetryAfterIsExact: the seconds are rounded up exactly; the original rounds a floating point number of seconds.
- InvitationRaces.Next: transactions see committed rows and commit their writes at once, as under read committed isolation with row locks; deadlocks and driver errors are left out.
- Invitations.TenantRepository.ListPendingInvitations: the ids are listed rather than the rows; invitations of the same instant come in any order, as in the original.
- Invitations.TenantRepository.CreateTenantInvitation: roles are a datatype, their text forms are left out.
- SqlSplitter.SplitSQLStatements: characters are Dafny characters rather than UTF-8 runes.
- MqttTopics.NormalizeKind: lower-casing is ASCII only here and in command names, which leaves out letters such as the Kelvin sign that Unicode lower-cases to ASCII.
- MqttIsolation.DownlinkReaders: templates in which the uuid placeholder is not directly below the base are not rendered in the statement; `MqttIsolation.TopicReaders` says who reads whatever they yield. A uuid that holds braces, which another placeholder could match, is excluded.
- DeviceTable.DeviceRepository.DestroyDevice: the metrics and logs tables are maps from a device to its entries, which nothing here looks into.
- MqttInbound.HandleMessage: the readings of an event, their decoding from JSON and what the core does with them are left out; the strings a payload names are parameters.
- The downlink status path of the MQTT adapter: it publishes before it marks a command sent and never requeues, so finality and order are stated for TCP only.
- Presence, access control, pagination, configuration, migrations on disk, frontend and generated code: they would only add easy members.
