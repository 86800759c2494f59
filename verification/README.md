# OpenDisplay image transfer, verified

A model of the OpenDisplay component for ESPHome: the BLE image transfer (DIRECT and PIPE), the
panel behind it, the rings between the BLE callbacks and `loop()`, and the codecs on the wire.
`dafny verify dfyconfig.toml` checks all of it.

## How it is built

| file | what it holds |
|---|---|
| `bytes.dfy`, `wire.dfy` | counters that wrap, little-endian fields, response encoders, the SACK rule, `parse_pipe_start` |
| `crc16.dfy` | the CRC loop, the GF(2) remainder it computes, the errors it detects |
| `config_blob.dfy` | the 0x0040 blob, its chunks, the client's way back |
| `rings.dfy`, `spsc_ring.dfy` | `RxQueue` and `TxQueue` as classes; the shared ring split into single accesses |
| `engine_model.dfy`, `transfer_engine.dfy` | the engine's handlers as functions; the engine as a class over a backend that may answer anything, proved equal to them |
| `engine_runs.dfy`, `engine_theorems.dfy`, `engine_timers.dfy` | the invariant over every run, and what follows from it |
| `replies.dfy`, `engine_books.dfy` | every answer byte by byte; statistics, last error and reports, over every run |
| `panel_model.dfy`, `panel_backends.dfy` | the two backends over a driver with a pixel array, as functions and as classes |
| `system_runs.dfy`, `direct_transfer.dfy` | engine, backend and driver together; a whole DIRECT transfer |
| `pipe_protocol.dfy`, `pipe_liveness.dfy`, `pipe_recovery.dfy` | PIPE between a windowed client and the engine: safety over a lossy channel, progress over a lossless one, recovery over a lossy one |
| `component.dfy`, `component_runs.dfy` | callbacks, `loop()`, dispatch and notifications as a class, and every interleaving of them |
| `isolation.dfy` | the same with the callbacks interrupting `loop()` between any two accesses to what they share |
| `component_frames.dfy`, `component_system.dfy`, `direct_component.dfy` | what a written frame brings about and what is notified; the component over a backend; a DIRECT image through both |
| `pipe_component.dfy`, `end_ack.dfy`, `component_panel.dfy` | a PIPE client, its radio and the whole component with both rings; and with the backend and driver behind it |

Each handler has two forms. A function gives the new state, the result and the backend calls with
their answers; a method does the same work step by step on fields, with a backend whose answers are
arbitrary, and its contract equates the two for the answers that were given. Runs are sequences of
steps of the functions: any order of handlers, ticks, aborts, disconnects and driver steps. A step
that is not possible leaves the state alone, so every sequence is a run.

`Post` in `engine_runs.dfy` reads a log of backend calls as a ledger (is a refresh open, which bytes
did the panel take), written without looking at the engine; the invariant ties the engine's counters
to it. `PanelExclusion` and `FrameDiscipline` are about the log alone.

## Where the code and its description differ

The code is modelled as it is. Each of these is proved, with the exact condition:

- **SACK before the first chunk.** With nothing accepted the SACK still acknowledges chunk 0
  (`SackBeforeFirstChunk`). If the first of two chunks sent back to back is lost, the client believes
  it arrived and no continuation ever gets a chunk accepted (`DeludedForever`). A client can get there
  if and only if it may have two chunks on their way at once (`DelusionIff`), and that is the only
  false belief it can get (`BeliefSound`) and the only loss an open transfer cannot recover from
  (`RecoverableIff`).
- **SACK after 2^32 chunks.** The mask is exact if and only if the packet counter has not wrapped to
  a value below 33 (`SackExactness`); it is sound regardless (`SackSound`).
- **0x0080 header length.** The length test admits 8 and 9 bytes but `total_size` is read from offsets
  6 to 9, so those requests are judged by stale memory, and only those (`PipeStartReadsPayloadOnly`).
- **ack_every above the window.** The client jams in some lossless run if and only if the negotiated
  ack_every exceeds the negotiated window and a windowful is not the whole image (`JamsIff`).
- **Abort of a running refresh.** Both backends forget the refresh in `abort_transfer`, so after a user
  abort or a refresh timeout, and after nothing else (`StuckIff`, `RunAccounted`), the panel stays owned
  and no START is accepted until the driver fails (`StuckForever`). With the epaper backend a tick over
  a driver that is done frees the panel if and only if that has not happened (`ReadyTickFreesIff`).
- **IT8951 settle deadline.** A refresh begun exactly 5 s before the clock wraps gets deadline 0, which
  means "none" (`SettleDeadlineAtZero`). Likewise a transfer deadline of 0 never fires (`FiresWhenDue`).
- **TX reserve.** The constant says 4, the ring of 16 holds 15, so three frames are reserved
  (`ReserveIsThree`). The END ACK is not pushed as a terminal frame and is lost if and only if more
  than ten frames wait (`EndAckFate`). Over whole passes of `loop()` a client that sends nothing else can
  lose it if and only if ack_every is 1, the window at least twelve and the image sixteen chunks or more
  (`EndAckLossIff`). A configuration answer is complete if and only if all its frames fit in twelve
  (`ConfigAnswerCompleteIff`).
- **Fatal latch.** After a 0x81 NACK further chunks are discarded until the next START if and only if the
  NACK did not end an open PIPE transfer and nothing ends a transfer in the meantime (`LatchHoldsIff`):
  every abort resets the latch. Two NACKs between STARTs are the bound, and are reached
  (`FatalNacksBounded`, `FatalLatchLost`).
- **Reconnecting.** A connection can feed a transfer it did not start if and only if, when its generation
  is counted up, `loop()` is about to leave one open (`IsolationIff`): a transfer is open, or a START of the
  old connection is between its generation check and its handler. So the check does not keep stale packets
  out by itself (`CheckedStartMixes`). With nobody connected, p passes through `loop()` close the transfer
  from every state with q packets waiting if and only if q <= 8 (p - 1): four for a full ring, one for none
  (`PassesNeeded`).
- **Leftover notifications.** The transmit ring is never emptied, so a new connection is sent only frames
  queued under it if and only if the ring is empty when it is made (`OnlyItsOwnIff`).
- **0x0082 END.** For a real panel it never starts a refresh; PIPE completes by its last chunk alone
  (`PipeEndStartsRefreshIff`).
- **A second START.** `docs/TODO.md:288` expects it to be rejected while a transfer is active; it is
  accepted and aborts that transfer (`StartAcceptedIff`).

## Model

| member | source | states |
|---|---|---|
| `Wire.SackExactness` | components/opendisplay/protocol.cpp:137-173 | the set a client decodes from the 7-byte SACK is exactly the last min(n, 33) accepted sequence numbers, across the mod-256 wrap, if and only if the 32-bit packet counter has not wrapped below 33 |
| `Wire.SackSound` | components/opendisplay/protocol.cpp:164-173 | with at least one accepted chunk no SACK acknowledges anything else, wrapped counter included |
| `Wire.SackCovers` | components/opendisplay/protocol.cpp:137-173 | through shift, mask and little-endian encoding a sequence number is acknowledged exactly when it is at most as far behind as the counter allows |
| `Wire.SackBeforeFirstChunk` | components/opendisplay/protocol.cpp:164-173 | before the first accepted chunk the SACK acknowledges chunk 0 |
| `Wire.PipeStartVerdict` | components/opendisplay/protocol.cpp:64-119 | exactly the headers of legal requests are accepted, each as the request it encodes; unknown flags and full partial headers have their own codes, everything else is a bad header |
| `Wire.PipeStartRoundTrip` | components/opendisplay/protocol.cpp:64-119 | every legal request of at least 10 bytes is recovered from its header whatever follows it |
| `Wire.PipeStartReadsPayloadOnly` | components/opendisplay/protocol.cpp:67-96 | the verdict is a function of the payload except for otherwise good headers of 8 or 9 bytes |
| `Crc16.ComputeCrc` | components/opendisplay/protocol.cpp:249-257 | the nested loop computes the function the CRC theorems are about |
| `Crc16.CrcIsRegister` | components/opendisplay/protocol.cpp:249-257 | byte loop and bit-serial register agree for every length |
| `Crc16.CrcIsRemainder` | components/opendisplay/protocol.cpp:249-257 | the CRC is the one polynomial of degree below 16 that makes the initialised message times x^16 a multiple of x^16 + x^12 + x^5 + 1 |
| `Crc16.ShiftBijective` | components/opendisplay/protocol.cpp:252-255 | one shift of the register is a bijection |
| `Crc16.UpdateInjective` | components/opendisplay/protocol.cpp:250-256 | feeding the same bytes never merges two register states |
| `Crc16.BurstDetected` | components/opendisplay/protocol.cpp:249-257 | messages of equal length that differ only within 16 consecutive bits have different CRCs |
| `Crc16.AdjacentBytesDetected` | components/opendisplay/protocol.cpp:249-257 | the same for differences within two adjacent bytes |
| `Crc16.OddErrorsDetected` | components/opendisplay/protocol.cpp:249-257 | an odd number of flipped bits always changes the CRC |
| `ConfigBlob.AppendPacket` | components/opendisplay/protocol.cpp:260-269 | a record goes behind the bytes already there or, when it does not fit, nothing changes |
| `ConfigBlob.SealBlob` | components/opendisplay/protocol.cpp:340-358 | the CRC covers the packets with zero length bytes, and the length is put in afterwards |
| `ConfigBlob.BuildConfigBlob` | components/opendisplay/protocol.cpp:271-358 | which error or which 133 bytes, for every capability set and buffer size |
| `ConfigBlob.RecordsRoundTrip` | components/opendisplay/protocol.cpp:260-269 | any list of records of known kinds is recovered from its bytes |
| `ConfigBlob.BlobRoundTrip` | components/opendisplay/protocol.cpp:271-358 | length, CRC and records parse back to geometry, scheme, panel id and transmission modes |
| `ConfigBlob.BlobLaidOut` | components/opendisplay/protocol.cpp:271-358 | the 133 bytes one by one: length, version, the four records with their fields, absent pins and mode bits, and the CRC low byte first |
| `ConfigBlob.DamageDetected` | components/opendisplay/protocol.cpp:271-358 | a blob damaged within two adjacent bytes of its body is refused |
| `ConfigBlob.EncodeConfigChunk` | components/opendisplay/protocol.cpp:360-389 | a frame of at most 100 bytes, empty exactly behind the end of the blob |
| `ConfigBlob.ChunkLaidOut` | components/opendisplay/protocol.cpp:360-389 | a frame byte by byte: 94 bytes of the blob behind the total length, then 96 per frame, each from where the last one ended |
| `ConfigBlob.ChunksRoundTrip` | components/opendisplay/protocol.cpp:360-389 | for every blob up to 65535 bytes the chunks reassemble to it |
| `ConfigBlob.TruncatedChunks` | components/opendisplay/protocol.cpp:360-389 | no proper prefix of the chunks passes for a whole configuration |
| `ConfigBlob.ConfigReadRoundTrip` | components/opendisplay/protocol.cpp:271-389 | build, chunk, reassemble, check, parse: the client gets what was advertised |
| `Rings.RxQueue.Push` | components/opendisplay/ble_transport.cpp:10-33 | a frame of 1..244 bytes is appended whole unless 23 are queued; high-water mark and overflow counter follow |
| `Rings.RxQueue.Pop` | components/opendisplay/ble_transport.cpp:35-42 | takes the oldest packet |
| `Rings.TxQueue.Push` | components/opendisplay/ble_transport.cpp:44-64 | appends, or refuses at 15 frames, at 12 for ordinary ones |
| `Rings.TxQueue.Pop` | components/opendisplay/ble_transport.cpp:66-72 | takes the oldest frame |
| `Rings.WindowLength` | components/opendisplay/ble_transport.cpp:28 | the depth formula is the queue length and the full test holds exactly at capacity minus one |
| `Rings.WindowPush` | components/opendisplay/ble_transport.cpp:14-26 | writing the slot changes nothing visible, publishing the index appends one element |
| `Rings.WindowPop` | components/opendisplay/ble_transport.cpp:35-42 | advancing the tail removes exactly the first element, also across the wrap |
| `Rings.TxRunKeepsReserve` | components/opendisplay/ble_transport.cpp:52-58 | over every run slots past the twelfth hold terminal frames only |
| `Rings.TerminalRefusedOnlyBehindThree` | components/opendisplay/ble_transport.cpp:44-64 | a terminal frame is refused only when three terminal frames wait already |
| `Rings.ReserveIsThree` | components/opendisplay/ble_transport.h:69-74 | the reserve is three frames, not four |
| `SpscRing.RunKeepsInv` | components/opendisplay/ble_transport.cpp:10-42 | the protocol of the two contexts keeps its invariant under every interleaving of single reads, word copies and index publishes |
| `SpscRing.RefinesFifo` | components/opendisplay/ble_transport.cpp:10-42 | in every interleaving what was taken followed by what is queued is what was offered, in order, at most 23 at a time |
| `SpscRing.NeverTheSameSlot` | components/opendisplay/ble_transport.cpp:22-41 | the consumer never copies the slot the producer is writing |
| `SpscRing.StepIsQueueStep` | components/opendisplay/ble_transport.cpp:10-42 | each single access is a stutter, one enqueue or one dequeue of the abstract queue |
| `TransferEngines.TransferEngine.AbortTxn` | components/opendisplay/transfer_engine.cpp:56-68 | resets the transaction, tells the backend only if one was active, keeps panel ownership |
| `TransferEngines.TransferEngine.HandleDisconnect` | components/opendisplay/transfer_engine.cpp:72-82 | aborts only the session's own transfer and never a refresh |
| `TransferEngines.TransferEngine.Begin` | components/opendisplay/transfer_engine.cpp:86-128 | the shared START, with its three refusals and the abort of the previous transfer |
| `TransferEngines.TransferEngine.HandleDirectStart` | components/opendisplay/transfer_engine.cpp:132-157 | new state, reply and backend calls of a DIRECT START |
| `TransferEngines.TransferEngine.HandleDirectData` | components/opendisplay/transfer_engine.cpp:159-196 | the same for DIRECT DATA, all refusals included; its answers in bytes are `DirectDataAnswer` |
| `TransferEngines.TransferEngine.HandleDirectEnd` | components/opendisplay/transfer_engine.cpp:198-212 | the same for DIRECT END |
| `TransferEngines.TransferEngine.HandlePipeStart` | components/opendisplay/transfer_engine.cpp:216-261 | the same for PIPE START with the min rule; its answers in bytes are `PipeStartAnswer` |
| `TransferEngines.TransferEngine.HandlePipeData` | components/opendisplay/transfer_engine.cpp:263-348 | the same for PIPE DATA: latch, order, size, write, cadence, auto-complete; its answers in bytes are `PipeDataAnswer` |
| `TransferEngines.TransferEngine.HandlePipeEnd` | components/opendisplay/transfer_engine.cpp:350-370 | the same for PIPE END with the flushed SACK |
| `TransferEngines.TransferEngine.Finish` | components/opendisplay/transfer_engine.cpp:374-411 | validation, finish_frame and begin_refresh in order, each with its failure path |
| `TransferEngines.TransferEngine.HandleTick` | components/opendisplay/transfer_engine.cpp:415-462 | polling while the panel is owned, then the deadlines |
| `TransferEngines.TransferEngine.TakeTailSack` | components/opendisplay/transfer_engine.h:105-111 | hands out a staged SACK once |
| `EngineRuns.RunKeepsInv` | components/opendisplay/transfer_engine.h:27-55 | over every run the counters, offsets and states agree with what the backend was told: accepted bytes, sequence numbers, packet and cadence counters, ownership |
| `EngineRuns.StepKeepsInv` | components/opendisplay/transfer_engine.cpp:56-462 | every handler keeps that invariant, whatever the backend answers |
| `EngineTheorems.PanelExclusion` | components/opendisplay/transfer_engine.cpp:64-68 | in no run is a frame opened, written, finished or refreshed between a successful begin_refresh and a terminal poll |
| `EngineTheorems.StatesAndOwnership` | components/opendisplay/transfer_engine.cpp:374-461 | transient states are never visible; REFRESHING owns the panel, RECEIVING does not; ownership ends exactly at the first terminal poll |
| `EngineTheorems.FrameDiscipline` | components/opendisplay/transfer_engine.cpp:180-191 | every write continues where the accepted bytes end and stays in the frame, and a refresh is begun over exactly one full frame |
| `EngineTheorems.WrittenIsAccepted` | components/opendisplay/transfer_engine.cpp:306-339 | what the panel holds of the open frame is the concatenation of the payloads accepted since its START |
| `EngineTheorems.OutcomesConserved` | components/opendisplay/transfer_engine.cpp:421-460 | accepted STARTs = completed + failed + aborted + active, and the statistics are those counts modulo 2^32 |
| `EngineTheorems.StartAcceptedIff` | components/opendisplay/transfer_engine.cpp:86-128 | a START is accepted exactly by request, ownership and backend, never because of a transfer in progress, which it aborts |
| `EngineTheorems.FatalNacksBounded` | components/opendisplay/transfer_engine.cpp:263-314 | between two STARTs at most two fatal NACKs plus one per user abort |
| `EngineTheorems.LatchSetIff` | components/opendisplay/transfer_engine.cpp:266-280 | a NACK leaves the latch set if and only if it was not an open PIPE transfer that it ended |
| `EngineTheorems.LatchHoldsIff` | components/opendisplay/transfer_engine.cpp:263-314 | all 0x81 frames between a NACK and the next START are dropped in silence if and only if the NACK did not end an open PIPE transfer and nothing ends a transfer in between |
| `EngineTheorems.EmittedSacks` | components/opendisplay/transfer_engine.cpp:291-345 | every SACK sent or staged is the one for the chunks accepted so far, and one is sent exactly at multiples of ack_every |
| `EngineTheorems.PipeEndStartsRefreshIff` | components/opendisplay/transfer_engine.cpp:350-383 | an explicit 0x0082 can start a refresh if and only if the frame has zero bytes |
| `EngineTheorems.PipeEndAckCarriesTail` | components/opendisplay/transfer_engine.cpp:323-339 | every PIPE END ACK comes from the last chunk, with its tail SACK staged and the refresh begun |
| `Replies.DirectStartAnswer` | components/opendisplay/transfer_engine.cpp:132-157 | in every run a DIRECT START is answered 00 70 if it opens a transfer, FF 70 otherwise, and opens one exactly by payload, ownership and backend |
| `Replies.DirectDataAnswer` | components/opendisplay/transfer_engine.cpp:159-196 | DIRECT DATA is answered 00 71 exactly when its bytes went to the panel, FF 71 otherwise, and when that is |
| `Replies.DirectEndAnswer` | components/opendisplay/transfer_engine.cpp:198-212 | DIRECT END is answered 00 72 exactly when it begins a refresh, FF 72 otherwise, and when that is |
| `Replies.PipeStartAnswer` | components/opendisplay/transfer_engine.cpp:216-261 | a PIPE START is accepted or refused as its bytes, the panel and the backend say; the answer is eight literal bytes that announce the negotiated numbers, or FF 80 with the code of the reason |
| `Replies.SackLaidOut` | components/opendisplay/protocol.cpp:137-150 | the seven bytes of a SACK: 00 81, newest number, and mask bit i in byte 3 + i / 8 for the chunk i + 1 before it |
| `Replies.PipeDataAnswer` | components/opendisplay/transfer_engine.cpp:263-348 | all answers to PIPE DATA, byte by byte: silence, NACK 4 with the numbers it reports, SACK, NACK 3, the END answer with its tail |
| `Replies.PipeEndAnswer` | components/opendisplay/transfer_engine.cpp:350-370 | 00 82 exactly when a refresh begins, else FF 82; the tail SACK is staged if and only if chunks have come in an open transfer since the last one |
| `EngineBooks.TickReports` | components/opendisplay/transfer_engine.cpp:415-462 | what a tick reports and releases, if and only if, from state, poll and deadlines |
| `EngineBooks.TerminalErrorIff` | components/opendisplay/transfer_engine.cpp:132-462 | in every run a result is a terminal error exactly when it refuses a START or ends a transfer or refresh without success |
| `EngineBooks.StatisticsCount` | components/opendisplay/transfer_engine.cpp:182-451 | over every run each statistic is the number of its events modulo 2^32 |
| `EngineBooks.LastErrorNames` | components/opendisplay/transfer_engine.cpp:56-462 | after every step of every run last_error is the reason of that step's refusal or abort, and otherwise what it was |
| `EngineTimers.FiresWhenDue` | components/opendisplay/transfer_engine.cpp:50-52 | within half the clock's range the wrapping test is the plain comparison; deadline 0 never fires |
| `EngineTimers.DeadlineTest` | components/opendisplay/transfer_engine.cpp:50-52 | the engine's test on reduced times decides exactly that |
| `EngineTimers.DeadlinesTrackTime` | components/opendisplay/transfer_engine.cpp:116 | over unbounded time the stored deadlines are the true ones modulo 2^32 |
| `EngineTimers.IdleTransferEnds` | components/opendisplay/transfer_engine.cpp:440-447 | a tick ends an idle transfer exactly when the timeout has passed since the last accepted packet; rejected packets never postpone it |
| `EngineTimers.PendingRefreshEnds` | components/opendisplay/transfer_engine.cpp:448-456 | the same for a refresh that stays pending; the panel stays owned |
| `PanelModel.PixelsOfByte` | components/opendisplay/backend_epaper_spi.cpp:113-135 | the loop's division and remainder name exactly the pixels of a byte |
| `PanelModel.RowsPadded` | components/opendisplay/backend_epaper_spi.cpp:57-60 | rows are padded to whole bytes and no further |
| `PanelModel.EveryByteShows` | components/opendisplay/backend_epaper_spi.cpp:113-135 | every byte of a frame carries a pixel, its leftmost one named |
| `PanelModel.PixelsApart` | components/opendisplay/backend_epaper_spi.cpp:113-135 | distinct pixels have distinct bits, all within the frame |
| `PanelBackends.PaintOneMore` | components/opendisplay/backend_epaper_spi.cpp:113-135 | one more byte changes exactly the pixels the inner loop draws for it, and them to its bits |
| `PanelBackends.DrawRun` | components/opendisplay/backend_epaper_spi.cpp:113-135 | the loops leave the picture in which every pixel is its bit of the data, or what it was |
| `PanelBackends.EpaperBackend.Init` | components/opendisplay/backend_epaper_spi.cpp:22-82 | which driver states are refused, and otherwise the capabilities with a frame of (width + 7) / 8 * height bytes |
| `PanelBackends.EpaperBackend.DoBeginFrame` | components/opendisplay/backend_epaper_spi.cpp:84-99 | accepts exactly full uncompressed frames of its scheme and size |
| `PanelBackends.EpaperBackend.DoWriteContiguous` | components/opendisplay/backend_epaper_spi.cpp:101-138 | the nested pixel loops produce the bit-addressed picture, in range, or change nothing |
| `PanelBackends.EpaperBackend.DoBeginRefresh` | components/opendisplay/backend_epaper_spi.cpp:147-179 | accepted exactly when the driver left its ready state |
| `PanelBackends.EpaperBackend.DoPollRefresh` | components/opendisplay/backend_epaper_spi.cpp:181-200 | failed, pending or complete from driver state and the started flag |
| `PanelBackends.EpaperBackend.DoAbortTransfer` | components/opendisplay/backend_epaper_spi.cpp:202-214 | forgets the refresh, touches nothing else |
| `PanelBackends.IT8951Backend.DoWriteContiguous` | components/opendisplay/backend_it8951.cpp:83-112 | the second backend's loops produce the same picture |
| `PanelBackends.IT8951Backend.DoBeginRefresh` | components/opendisplay/backend_it8951.cpp:116-130 | sets the wrapping settle deadline |
| `PanelBackends.IT8951Backend.DoPollRefresh` | components/opendisplay/backend_it8951.cpp:132-147 | complete once the deadline has passed, whatever the panel does |
| `SystemRuns.RefreshedPicture` | components/opendisplay/transfer_engine.cpp:374-411 | in every run, while a refresh is open, pixel (x, y) is bit 7 - x mod 8 of byte y * stride + x / 8 of the payloads accepted since that START, whatever the chunking and whatever was left behind |
| `SystemRuns.RunKeepsSysInv` | components/opendisplay/backend_epaper_spi.cpp:101-138 | over every run the panel shows the bytes accepted so far, even from a partial transfer |
| `SystemRuns.SysRunIsEngineRun` | components/opendisplay/transfer_engine.cpp:56-462 | the engine of a composed run is an engine of the other theorems |
| `SystemRuns.EveryEventEnabled` | components/opendisplay/backend_epaper_spi.cpp:84-214 | no event is impossible over a real backend, so the composed statements cover all of them |
| `SystemRuns.CompletionAttributed` | components/opendisplay/transfer_engine.cpp:421-437 | with the epaper backend a 0x0073 is sent at most once per acknowledged END and only after the driver finished the refresh that END launched, local update() calls included |
| `SystemRuns.StuckIff` | components/opendisplay/backend_epaper_spi.cpp:181-214 | a step gets the panel stuck (owned, its refresh forgotten) if and only if it is a user abort or a timeout of a refreshing transaction |
| `SystemRuns.RunAccounted` | components/opendisplay/transfer_engine.cpp:64-70 | in every run an owned panel is refreshing or stuck |
| `SystemRuns.ReadyTickFreesIff` | components/opendisplay/transfer_engine.cpp:421-437 | with the epaper backend, once the driver is done a tick frees an owned panel if and only if its transaction is still refreshing |
| `SystemRuns.StuckForever` | components/opendisplay/backend_it8951.cpp:132-149 | then, while the driver does not break, it stays so and no START is accepted, with either backend |
| `SystemRuns.StuckStep` | components/opendisplay/transfer_engine.cpp:421-437 | the only step that frees it is a tick over a broken driver |
| `SystemRuns.CompletionSettled` | components/opendisplay/backend_it8951.cpp:116-147 | with the IT8951 backend a 0x0073 is sent at most once per acknowledged END and only at a poll past the settle deadline that END set |
| `SystemRuns.SettledTickFreesIff` | components/opendisplay/backend_it8951.cpp:132-149 | with it a tick frees an owned panel if and only if the driver is broken or the transaction is still refreshing and its settle deadline has passed |
| `SystemRuns.SettleDeadlineAtZero` | components/opendisplay/backend_it8951.cpp:125-139 | a refresh begun at the one millisecond that makes the deadline 0 is forgotten at once |
| `DirectTransfer.ImageDisplayedIff` | components/opendisplay/transfer_engine.cpp:132-212 | for every image, chunking and pace, with ticks, local updates and driver steps anywhere, whatever the system held before and with either backend: the START is answered 00 70, a packet 00 71 as long as no tick has found the deadline due and FF 71 afterwards, the END 00 72 with the panel showing the image if and only if none has and the driver is ready at the END, and FF 72 otherwise |
| `DirectTransfer.CompletionReportedIff` | components/opendisplay/transfer_engine.cpp:415-462 | with the epaper backend the first tick that finds the driver done, whenever it comes and whatever local automations do, reports 0x0073 and frees the panel if and only if no earlier tick found the refresh deadline due |
| `PipeProtocol.AcceptedStartBegins` | components/opendisplay/transfer_engine.cpp:216-261 | after every accepted PIPE START of every run, engine and panel are as the protocol theorems assume, for a client that sends its first chunk only once the START is answered |
| `PipeProtocol.SlidingWindowSafety` | components/opendisplay/transfer_engine.cpp:285-339 | with at most 32 unacknowledged chunks over a channel that loses at will, with retransmission and aborts, the panel always holds a prefix of the image, and all of it when refreshing |
| `PipeProtocol.AcceptedExactlyNext` | components/opendisplay/transfer_engine.cpp:291-314 | a delivered chunk is taken exactly when it is the true next one, and none is ever refused for its size |
| `PipeProtocol.ExpectedSequenceIsNext` | components/opendisplay/transfer_engine.cpp:285-296 | the 8-bit comparison identifies the true chunk number |
| `PipeProtocol.SackTellsBelow` | components/opendisplay/opendisplay_protocol.h:622-633 | a SACK, however late, tells the client about exactly the chunks below its count, and about chunk 0 |
| `PipeProtocol.BeliefSound` | components/opendisplay/opendisplay_protocol.h:622-633 | what the client believes arrived has no gap and did arrive, except chunk 0 before anything was accepted |
| `PipeProtocol.RunKeepsNetInv` | components/opendisplay/transfer_engine.cpp:263-348 | the invariant behind these, over every run |
| `PipeProtocol.SessionSafety` | components/opendisplay/transfer_engine.cpp:86-128 | the same over any number of transfers, given up at any point and started over with other images |
| `PipeProtocol.DelusionIff` | components/opendisplay/transfer_engine.cpp:291-296 | a client can come to believe that its lost first chunk arrived if and only if it may have two chunks on their way |
| `PipeProtocol.DeludedForever` | components/opendisplay/transfer_engine.cpp:291-296 | after which nothing is ever accepted, whatever happens |
| `PipeLiveness.JamsIff` | components/opendisplay/transfer_engine.cpp:245-251 | a lossless run can jam if and only if ack_every exceeds the window and a windowful is not the image |
| `PipeLiveness.RequestNeverJams` | components/opendisplay/transfer_engine.cpp:245-251 | a request with req_ack_every <= req_window never jams |
| `PipeLiveness.RunKeepsFlow` | components/opendisplay/transfer_engine.cpp:316-347 | losslessly, with ticks anywhere that find nothing due, frames arrive in order and SACKs in steps of ack_every, and the out-of-order branch is never entered |
| `PipeLiveness.WorkShrinks` | components/opendisplay/transfer_engine.cpp:263-348 | no lossless run goes on forever |
| `PipeLiveness.RestMeansDone` | components/opendisplay/transfer_engine.cpp:316-347 | one that has come to rest has delivered the whole image and begun its refresh |
| `PipeLiveness.CanComplete` | components/opendisplay/transfer_engine.cpp:316-347 | and from everywhere there is a way to come to rest |
| `PipeLiveness.LastByteAnswered` | components/opendisplay/transfer_engine.cpp:323-339 | over a channel that drops nothing the last byte brings the tail SACK, covering all the client waits for, then the END ACK |
| `PipeRecovery.RecoverableIff` | components/opendisplay/transfer_engine.cpp:263-348 | after any run over any channel, some continuation puts the whole image on the panel if and only if it is there already, or the transfer is still open and the client has no false belief about its first chunk |
| `Component.OpenDisplayComponent.OnBleConnect` | components/opendisplay/opendisplay.cpp:186-190 | a new generation for component and engine |
| `Component.OpenDisplayComponent.OnBleWrite` | components/opendisplay/opendisplay.cpp:179-184 | a frame is queued whole under the current generation or leaves no trace |
| `Component.OpenDisplayComponent.Loop` | components/opendisplay/opendisplay.cpp:200-225 | one pass is sweep, at most eight packets, tick, notifications; fewer than eight only if the ring is empty |
| `Component.OpenDisplayComponent.HandlePacket` | components/opendisplay/opendisplay.cpp:227-299 | dispatch of every opcode, unsupported ones included; which is which is `FramesServed` |
| `Component.OpenDisplayComponent.ApplyResult` | components/opendisplay/opendisplay.cpp:301-345 | tail SACK, response, refresh report, in that order, each terminal or not; in bytes `AppliedPushes` |
| `Component.OpenDisplayComponent.SendConfig` | components/opendisplay/opendisplay.cpp:347-367 | the chunk loop queues chunks until one does not fit |
| `Component.OpenDisplayComponent.DrainTx` | components/opendisplay/opendisplay.cpp:385-401 | at most four notifications, oldest first, only while connected |
| `ComponentFrames.FramesServed` | components/opendisplay/opendisplay.cpp:211-299 | in every run a packet of the current connection is served by its first two bytes: 00 70, 71, 72, 80, 81 and 82 do to engine and ring what the handler of that name does with the rest; the reads and everything else leave the engine alone |
| `ComponentFrames.AppliedPushes` | components/opendisplay/opendisplay.cpp:301-345 | applying a result queues staged SACK, response, and 00 73 or 00 74, in that order, fifteen at most and ordinary ones up to twelve |
| `ComponentSystem.RunMirrors` | components/opendisplay/opendisplay.cpp:200-345 | every run of the component over a backend is a run of engine, backend and driver |
| `ComponentSystem.ReportsNotified` | components/opendisplay/opendisplay.cpp:325-345 | in every such run, with either backend, a step queues 00 73 exactly when it is a tick that finds the refresh of an acknowledged END over, which it uses up, and 00 74 exactly when it is one that finds it due but neither over nor failed; behind fifteen frames neither |
| `DirectComponent.ImageThroughComponent` | components/opendisplay/opendisplay.cpp:227-345 | a DIRECT image as frames 00 70, 00 71 and 00 72 through the rings and the component: the notifications are exactly the acknowledgements, 00 72 and the image on the panel if and only if the transfer was timely and the driver ready |
| `ComponentRuns.NodeRunIsEngineRun` | components/opendisplay/opendisplay.cpp:200-345 | every run of the component is a run of the engine, so all of the above holds in it |
| `Isolation.RunByAccesses` | components/opendisplay/opendisplay.cpp:179-225 | every run of callbacks and parts of `loop()` in one piece is one in which they proceed access by access |
| `Isolation.FineRunIsEngineRun` | components/opendisplay/opendisplay.cpp:200-345 | and wherever the callbacks interrupt, what the engine goes through is a run of the engine |
| `Isolation.ConnectionIsolation` | components/opendisplay/opendisplay.cpp:179-216 | in every such run in which no connection is made while `loop()` is about to leave a transfer open, all data of a transfer come from the connection that started it |
| `Isolation.IsolationIff` | components/opendisplay/opendisplay.cpp:186-216 | exactly that decides: a further connection keeps its data apart in every continuation if and only if it is not made at such a moment |
| `Isolation.CheckedStartMixes` | components/opendisplay/opendisplay.cpp:211-216 | it can go wrong although no transfer is open, when a START is between its check and its handler |
| `Isolation.StalePacketsSkipped` | components/opendisplay/opendisplay.cpp:211-216 | a packet taken off the ring after a newer connection was counted never reaches a handler |
| `Isolation.CalmIsLulled` | components/opendisplay/opendisplay.cpp:186-198 | after a calm run, a disconnected component holds at most a transfer of its last connection |
| `Isolation.SweepCloses` | components/opendisplay/opendisplay.cpp:207-208 | whose sweep leaves no transfer open |
| `Isolation.StaysClosed` | components/opendisplay/opendisplay.cpp:200-225 | only a handled packet opens one again, wherever the callbacks interrupt |
| `Isolation.PassesClose` | components/opendisplay/opendisplay.cpp:200-225 | with nobody connected, one pass more than it takes to empty the receive ring closes every transfer: four at most |
| `Isolation.PassesNeeded` | components/opendisplay/opendisplay.cpp:207-216 | exactly so many: p passes close the transfer from every reachable state with nobody connected, no transfer but the last connection's and q packets waiting, if and only if q <= 8 (p - 1) |
| `ComponentRuns.LeftoversFirst` | components/opendisplay/opendisplay.cpp:385-401 | what a new connection is sent first is what was queued for earlier ones |
| `ComponentRuns.OnlyItsOwnIff` | components/opendisplay/opendisplay.cpp:186-198 | it is sent only frames queued under it if and only if the transmit ring is empty when it is made |
| `ComponentRuns.NotificationsKeepOrder` | components/opendisplay/opendisplay.cpp:369-401 | notifications leave in the order they were queued, in every run |
| `ComponentRuns.EndAckFate` | components/opendisplay/opendisplay.cpp:301-311 | tail SACK directly before END ACK, which is lost if and only if more than ten frames wait |
| `ComponentRuns.ConfigAnswerCompleteIff` | components/opendisplay/opendisplay.cpp:347-367 | a configuration answer reassembles if and only if it fits in the twelve ordinary places |
| `PipeComponent.StartHandled` | components/opendisplay/opendisplay.cpp:227-299 | handling an accepted PIPE START, in any run of the component, leaves a transfer with nothing accepted |
| `PipeComponent.StartAnswered` | components/opendisplay/opendisplay.cpp:301-401 | and once its answer is notified, a client that waited for it begins as these rows assume, with both rings empty |
| `PipeComponent.RxNeverOverflows` | components/opendisplay/ble_transport.cpp:10-33 | in every run of client, radio, rings and component without radio loss, whatever aborts, timeouts and failures occur, the receive ring refuses no frame of a client that keeps to window and frame size, ring and radio hold at most a window, and the ring exactly the next chunks in order |
| `PipeComponent.LinkSafety` | components/opendisplay/opendisplay.cpp:200-345 | the prefix property and sound acknowledgements hold through the whole component |
| `EndAck.LinkNeverJams` | components/opendisplay/opendisplay.cpp:301-401 | even with SACKs dropped by a full transmit ring, a client with ack_every at most the window is never stuck in an open transfer |
| `EndAck.EndAckLostOnlyIf` | components/opendisplay/opendisplay.cpp:301-311 | a client that sends nothing else can lose its END ACK only with ack_every 1 and a window of at least twelve |
| `EndAck.EndAckCanBeLost` | components/opendisplay/ble_transport.cpp:44-64 | with those, for every image of sixteen chunks or more, whole passes of eight packets and four notifications lose it |
| `EndAck.EndAckLossIff` | components/opendisplay/opendisplay.cpp:200-225 | over whole passes it can be lost if and only if ack_every is 1, the window at least twelve and the image sixteen chunks long or longer |
| `ComponentPanel.ImageShown` | components/opendisplay/opendisplay.cpp:200-345 | in every run of a PIPE client without radio loss, through both rings, component, backend and driver, from begin_refresh until the panel is released it shows the client's image |
| `ComponentPanel.AlwaysPossible` | components/opendisplay/backend_epaper_spi.cpp:84-214 | no step of the component is impossible over a real backend |

## Left out

- ESPHome code generation, validation, automations, sensors and logging: glue without an algorithm.
- GATT setup, MTU, BLE names and the delivery of a notification: `millis()` is arbitrary, a delivered
  notification joins the sequence `air`.
- The contents of the firmware-version and MSD replies: parameters of `Identity`.
- Partial refresh, compression, authentication, NFC, LAN, LED and buzzer: described in the protocol
  header, not implemented.
- The display drivers: a pixel array and the phases ready, working, broken. A backend call answers
  accepted or not; which error code a refusal carries reaches nothing that is modelled.
- `IT8951Backend::init` (components/opendisplay/backend_it8951.cpp:23-68): repeats the geometry of the
  epaper backend's `init`.
- Statistics the engine never touches (`queue_overflows`, `queue_high_water`) and error strings.
- Memory ordering: `SpscRing` is sequentially consistent. It takes every single read, word copy and
  index publish as a step, except the producer's last read of `tail_` for the high-water mark.
- In module Component each callback and each part of `loop()` is one step; module Isolation takes them apart
  where they share `connected_` and the generation. There too an engine handler is one step: of what the
  callbacks write it reads the engine's copy of the generation only, and that once.
- PipeProtocol.NetStart: at most 2^32 - 1 chunks; an image has fewer bytes than that, so only a client
  that sends empty chunks could exceed it. Beyond it the wrapped packet counter makes SACKs incomplete
  (`Wire.SackExactness`).
- PipeProtocol.SessionSafety: answers to START carry no number, so the client is taken to know which of
  its STARTs an answer is for; without that a START lost behind an older, late answer would let it send
  into the transfer it gave up. DIRECT transfers in between are not part of it.
- ComponentSystem.ReportsNotified: a node whose version and MSD replies begin with 00 43 and 00 44, as
  `encode_version` and `encode_msd_response` (components/opendisplay/protocol.cpp) begin them.
- DirectComponent.ImageThroughComponent: a component that keeps up, so each frame is handled and its answer
  notified before the next one comes; chunks of at most 242 bytes, as a slot of the ring holds.
- PipeLiveness.FreshTransfer: a panel whose frame has at least one byte; for an empty frame the client
  has no chunk to send and only an explicit END completes.
- PipeComponent.LinkStart: one connection whose radio loses nothing; over a lossy channel the rings are not
  part of the net (`PipeProtocol`).
- SystemRuns.CompletionAttributed: for the epaper backend only; the IT8951 backend reports completion by
  elapsed time, so the statement would be false of it (`CompletionSettled` says what it does).
- EndAck.EndAckLossIff: transfer timeouts of at most 2^31 ms, beyond which every tick ends the transfer.
- SystemRuns.RefreshedPicture: no outside writer to the framebuffer; local automations may call `update()`
  but not draw.
- Isolation.ConnectionIsolation: fewer than 2^32 connections, after which generation numbers repeat.
