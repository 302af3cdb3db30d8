# Voice assistant firmware: verified models

Dafny models of the hand-written protocols and streaming loops of an ESP32-S3 voice assistant and of
the server code they talk to, with proofs about all their inputs and all their runs.

`dafny verify dfyconfig.toml` checks the whole project.

| module | what it models |
|---|---|
| `Bytes` | bytes, big-endian integers, concatenation, `memcpy`, `memmove` |
| `PacketScan` | splitting a byte stream into length-prefixed packets, for any header rule and any cutting |
| `Framing` | the framed downlink: server generator, device parser, nested Opus splitter, script parser |
| `Pipeline` | reader, decode task and playback task over two bounded queues, with terminals, cancellation, failing sends and a join that can time out |
| `StreamErrors` | what that pipeline reports, told from the events of its run |
| `JitterPlayback` | writer, stream task and closer around the jitter ring buffer |
| `Uplink` | regrouping PCM into encoder frames, and the numbered messages of a turn |
| `Reassembly` | the server's strict parser, frame table and reassembly |
| `WifiStore` | the A/B credential store on flash, with a fault at any write |
| `Ota` | the boot switch, its write-ahead record, rollback validation and watchdog, across resets and power cuts |
| `Conversation` | the conversation controller and the loop that drives it |
| `PlaybackSession` | ownership of playback sessions between caller, owner task and reaper |
| `PromptArbiter` | the shared prompt table and its owner task |
| `OutageNotifier` | outage flags, generation counter and timer task |
| `Capture` | speech start with preroll, and the two recorders with their stop rule |
| `Wav` | WAV parser, layout check, chunked playback |
| `JpegIndex` | the JPEG frame index over chunked reads |
| `Direction` | the direction history and the cluster choice |

Concurrent parts are step machines: a step is one critical section, one queue operation or one flash
write, a run is any sequence of steps, and what the environment decides (allocation, sends, timing,
cancellation, faults) is a parameter of the step. Beside each step machine stands the object whose
methods change the real fields in place; every method is proved to be the step it implements, or the
run of steps.
Sequential loops are methods with invariants, proved against specifications that do not mention the
loop. The Opus codecs, SHA-256 and the payload digest are arbitrary functions.

What is said of a run that the code does not guarantee is stated with its exact condition, and with
the input or run that breaks it:

- A chunk whose frame length wraps the 32-bit `size_t` is never received (`Framing.DownlinkRoundTrip`).
- A trailing partial Opus packet is never detected: whether a stream can return ESP_OK does not depend
  on it (`Pipeline.OkIsPossibleIff`), so ESP_OK covers the whole stream exactly when there is none
  (`Pipeline.PartialOpusTailIsUndetected`).
- A cancellation that the reader saw is not reported as one if the terminal could not be sent or the join
  was late (`StreamErrors.CancelledIff`).
- A close that returns OK can lose bytes exactly if the stream was exposed as it began: a chunk was on
  its way in, or in and not counted (`JitterPlayback.CloseCanLoseIffExposed`). Writes that begin after
  close can reorder bytes from any state of a stream that is not over and has not failed
  (`JitterPlayback.LateWritesCanReorder`).
- A frame missing at the very end of a turn leaves no trace on the server
  (`Reassembly.RejectsExactlyTheGaps`).
- A pointer write that fails after it took effect changes the stored list
  (`WifiStore.FailureCanChangeTheStoredList`). The network marked last can be evicted by upserts exactly
  if its mark wrapped the success counter (`WifiStore.MarkedIsSafeIff`).
- An erase still in flight when a new update is recorded can lose its record, and with it the watchdog.
  Beginning a record can end that way exactly if a task that would clear it is in flight or can still
  start (`Ota.RecordCanBeLostIff`); both the confirm task and the validation task can be that one
  (`Ota.RaceIsReachable`).
- A prompt submitted under the key of a pending network prompt is accepted and can be lost with it,
  whatever it is (`PromptArbiter.AcceptedIsKeptIff`, `PromptArbiter.DuplicateOfNetworkPromptIsLost`); under the
  key of any other prompt it can go unplayed (`PromptArbiter.SubmittedIsPlayedIff`).
- A network prompt that is put back for a conversation is lost if the table has filled meanwhile, and in no
  other way while the connection asks for it (`PromptArbiter.PromptLeavesIff`, `PromptArbiter.DeferredCanBeLost`).
- Prompt keys of 64 bytes or more are not recognised (`PromptArbiter.SubmitKeepsUniqueIff`); a waiter
  can miss a failure (`PromptArbiter.WaiterHearsOnlyTheLast`); a deferred network prompt can leave
  another one without a wake-up (`PromptArbiter.WakeUpIsLostIff`).
- An outage prompt can come up to two ticks early (`OutageNotifier.EarlyLookCanPromptEarly`): the wait
  is cut to whole ticks and the clock is not read again.
- The streaming recorder does not check its prefix against the buffer
  (`Capture.NeverOverfullIffPrefixFits`).

## Model

| member | source | states |
|---|---|---|
| PacketScan.ScanIsLossless | esp_idf_demo/main/cloud_client.c:1007-1104 | packets found plus leftover are exactly the bytes scanned; every packet is well formed; scanning stops only where no packet can be taken |
| PacketScan.ScanOfWire | esp_idf_demo/main/cloud_client.c:1007-1104 | printing any packets and scanning the bytes gives the same packets back, whatever follows them |
| PacketScan.ScanIsCutInvariant | esp_idf_demo/main/cloud_client.c:1098-1103 | scanning a stream in two pieces, carrying the leftover, is scanning it whole |
| PacketScan.FeedIsScanOfWhole | esp_idf_demo/main/cloud_client.c:2961-2974 | for any cutting into reads the packets, their order and the leftover are those of one scan of the whole body |
| Framing.FrameAudioPackets | src/api/realtime.py:106-112 | the frames are those of the non-empty chunks numbered from 0; it fails exactly when a number or a length does not fit 4 bytes |
| Framing.PendingBytes.Append | esp_idf_demo/main/cloud_client.c:971-997 | the contents grow by exactly the new bytes, or stay as they were when memory runs out |
| Framing.PendingBytes.DropFront | esp_idf_demo/main/cloud_client.c:1099-1102 | the consumed prefix and nothing else is removed |
| Framing.FrameStream.Remember | esp_idf_demo/main/cloud_client.c:1046-1056 | the expected sequence number follows the last one modulo 2^32, and a gap is counted exactly when it was not the expected one |
| Framing.FrameStream.Consume | esp_idf_demo/main/cloud_client.c:1007-1104 | hands over exactly the complete frames of the buffer in order, up to the first send that fails, and with which error; keeps exactly the leftover; a length that wraps the 32-bit size is never handed over |
| Framing.ReceiveBody | esp_idf_demo/main/cloud_client.c:2923-3037 | whatever fails, what was queued is the beginning of the body's frames; with memory and room for every read it is all of them up to a refused header, and success means exactly that there is none and the body does not end inside a frame |
| Framing.DecodeOpusPending | esp_idf_demo/main/cloud_client.c:1198-1242 | hands over exactly the complete Opus packets, stops at a zero length or a failing decoder, and what is left plus what was decoded is what was pending |
| Framing.ParseFramedPackets | scripts/realtime_smoke.py:65-79 | the script parser returns the scan of its buffer and keeps the leftover |
| Framing.NumberedHaveNoGaps | esp_idf_demo/main/cloud_client.c:1046-1056 | frames numbered 0, 1, 2, ... count no gap |
| Framing.GapsAreJumps | esp_idf_demo/main/cloud_client.c:1046-1056 | the gaps counted are the numbers that do not follow their predecessor, wherever the numbering begins |
| Framing.HeadersMean | esp_idf_demo/main/cloud_client.c:1020-1027 | which header bytes mean which length, for device, script and Opus splitter, and which are refused |
| Framing.DownlinkRoundTrip | esp_idf_demo/main/cloud_client.c:1007-1104 | for every cutting into reads the device ends with exactly the server frames, no gaps and an empty leftover, if and only if no chunk is so long that its frame length wraps |
| Framing.ScriptAgreesWithDevice | scripts/realtime_smoke.py:65-79 | script and device read the same packets from every stream the device does not refuse |
| Framing.OpusSurvivesBothCuts | esp_idf_demo/main/cloud_client.c:1173-1242 | Opus packets cut anywhere into chunks, framed, and cut anywhere into reads come out of both levels unchanged |
| Pipeline.StepKeepsInv | esp_idf_demo/main/cloud_client.c:1313-1487 | every step of reader, decode task, playback task and join keeps the stage invariants |
| Pipeline.CallbackSeesAPrefix | esp_idf_demo/main/cloud_client.c:2923-3138 | in every run, with cancellation and failing sends anywhere, the callback saw a prefix of what the body means, in order; ESP_OK means all of it, both tasks consumed the EOF, and no partial frame was left |
| Pipeline.PcmIsPlayedAsRead | esp_idf_demo/main/cloud_client.c:2974-3027 | for an unframed PCM stream that is the body itself |
| Pipeline.FramedPcmIsPlayedAsSent | src/api/realtime.py:106-112 | for framed PCM it is the chunks the server framed, if every one fits the device |
| Pipeline.OkIsPossibleIff | esp_idf_demo/main/cloud_client.c:2923-3138 | a body can end with ESP_OK exactly if it holds a payload, ends with a whole frame, and holds no frame or packet that a parser refuses or the decoder breaks on; nothing is asked of what follows its last complete Opus packet |
| Pipeline.PartialOpusTailIsUndetected | esp_idf_demo/main/cloud_client.c:3079-3108 | for any complete packets followed by a partial one, framed or not and however cut into reads, some run returns ESP_OK, plays exactly the complete packets and leaves the tail: the buffer is cleared before it is checked |
| Pipeline.StreamRuntime.HandOne | esp_idf_demo/main/cloud_client.c:1007-1104 | one turn of the hand-over loop: queue, history and result change exactly as specified |
| Pipeline.StreamRuntime.SendEnd | esp_idf_demo/main/cloud_client.c:3039-3051 | the reader ends the first queue with EOF or its error, or records that it could not |
| Pipeline.StreamRuntime.TakeEncoded | esp_idf_demo/main/cloud_client.c:1326-1370 | one turn of the decode task up to the decoding, with its cancellation rule |
| Pipeline.StreamRuntime.EmitOne | esp_idf_demo/main/cloud_client.c:1250-1295 | one decoded packet: queued, skipped when empty, or turned into the error that ends the task |
| Pipeline.StreamRuntime.ForwardEnd | esp_idf_demo/main/cloud_client.c:1297-1311 | the terminal goes into the second queue, and its send result is the task result |
| Pipeline.StreamRuntime.PlayOne | esp_idf_demo/main/cloud_client.c:1441-1480 | one turn of the playback task: cancellation, EOF, error, or the callback and its result |
| Pipeline.StreamRuntime.JoinTasks | esp_idf_demo/main/cloud_client.c:3053-3138 | ends the stream as the specified step does; what that step reports is said on the events of the run by the four results that follow |
| StreamErrors.CancelledEmptyOrLate | esp_idf_demo/main/cloud_client.c:3060-3127 | on the events of any run that returns: cancelled if the reader saw it, could tell the tasks and they were done in time; else early EOF if the body held nothing to play; else a timeout if the join was late |
| StreamErrors.ReadersError | esp_idf_demo/main/cloud_client.c:2923-3058 | then the error of the terminal that could not be allocated or sent, or of what stopped the reading: a failed read, a failed hand-over, a refused header, a partial frame |
| StreamErrors.TasksError | esp_idf_demo/main/cloud_client.c:1313-1487 | then the error of forwarding the terminal, then that of the playback task: a payload dropped for the cancellation, the callback, or what ended the decoding; OK exactly if everything could be decoded |
| StreamErrors.CancelledIff | esp_idf_demo/main/cloud_client.c:3122-3138 | exactly which runs report that they were cancelled |
| JitterPlayback.StepKeepsInv | esp_idf_demo/main/audio_out.c:592-752 | every step of writer, stream task and closer loses no byte and keeps counters, flags and order |
| JitterPlayback.EveryRunPlaysAPrefix | esp_idf_demo/main/audio_out.c:860-1110 | in every interleaving in which no write that is let through begins after close: the codec got a prefix of what was enqueued, whole samples only, nothing before the prebuffer level or a close; a close that returns OK on a stream that was not exposed at its start means everything was written |
| JitterPlayback.QuietTailIsEven | esp_idf_demo/main/audio_out.c:689-711 | the partial scratch tail drained after such a close has even length |
| JitterPlayback.WaitEndsIff | esp_idf_demo/main/audio_out.c:602-616 | a check ends the prebuffer wait exactly if the bytes enqueued, counted and unwritten are at the level, or close was requested |
| JitterPlayback.PlaysWithoutClose | esp_idf_demo/main/audio_out.c:592-684 | from every reachable state of an open stream whose codec has not failed and whose prebuffer level was enqueued, some run without a close gets all enqueued bytes to the codec, up to less than one read |
| JitterPlayback.CloseReports | esp_idf_demo/main/audio_out.c:1070-1107 | close returns the error of the codec write that failed, if one did, and otherwise what closing the codec returns |
| JitterPlayback.CloseCanLoseIffExposed | esp_idf_demo/main/audio_out.c:941-1107 | a close that returns OK can lose an enqueued byte exactly if, as it begins, a chunk that fits the ring is being sent, or one that is in the ring is not counted yet while the task is at its exit test |
| JitterPlayback.LateWritesCanReorder | esp_idf_demo/main/audio_out.c:892-997 | from every reachable state of a stream that is not over and has had no codec error, writes that begin after close have a run in which the codec gets bytes out of order |
| JitterPlayback.Drains | esp_idf_demo/main/audio_out.c:618-684 | left to itself, with a codec that accepts every write, a stream task empties the ring buffer and every byte keeps its place |
| JitterPlayback.PcmStream.BeginWrite | esp_idf_demo/main/audio_out.c:860-924 | argument checks, creation of ring and task, and the result check, in this order |
| JitterPlayback.PcmStream.RecheckWrite | esp_idf_demo/main/audio_out.c:941-969 | after a send that timed out the write goes on only while the stream runs, has no error and makes progress; once close was requested it always gives up |
| JitterPlayback.PcmStream.EndWrite | esp_idf_demo/main/audio_out.c:971-984 | the input counter moves only after the ring accepted the chunk; after that it is again the number of bytes enqueued |
| JitterPlayback.PcmStream.CheckPrebuffer | esp_idf_demo/main/audio_out.c:602-616 | one check of the wait as the specified step; when it ends the wait is said on the bytes by the result above |
| JitterPlayback.PcmStream.CheckExit | esp_idf_demo/main/audio_out.c:624-642 | the task leaves exactly when close was requested and the counted level is covered by its scratch bytes |
| JitterPlayback.PcmStream.CopyItem | esp_idf_demo/main/audio_out.c:644-655 | as much of the item as fits moves to the scratch buffer |
| JitterPlayback.PcmStream.WriteToCodec | esp_idf_demo/main/audio_out.c:834-858 | odd lengths and a closed codec are refused before the codec is asked |
| JitterPlayback.PcmStream.SettleWrite | esp_idf_demo/main/audio_out.c:655-684 | a failed write ends the task with its error, a good one counts and empties the scratch buffer |
| JitterPlayback.PcmStream.BeginClose | esp_idf_demo/main/audio_out.c:987-997 | close clears the started flag if there is a task, and keeps the accounting invariant |
| JitterPlayback.PcmStream.EndClose | esp_idf_demo/main/audio_out.c:1070-1109 | close reports the task error before the codec error and resets ring and counters; OK on a stream that was not exposed means the codec got every byte |
| Uplink.SlicesAreUnique | esp_idf_demo/main/cloud_conversation.c:519-542 | full slices and a shorter rest are the only such cutting of a sequence |
| Uplink.SlicesAreCutInvariant | esp_idf_demo/main/cloud_conversation.c:528-540 | slicing in two calls, carrying the rest, is slicing the whole |
| Uplink.UplinkTurn.StartTurn | esp_idf_demo/main/cloud_conversation.c:490-517 | a turn starts at number 0 with an empty frame |
| Uplink.UplinkTurn.SendCurrentFrame | esp_idf_demo/main/cloud_conversation.c:358-388 | one message with number, lengths and encoder output; the number moves and the frame empties only if all went well; an encoding of 0 or more than 65535 bytes is refused |
| Uplink.UplinkTurn.SendPcm | esp_idf_demo/main/cloud_conversation.c:519-542 | succeeds exactly if the socket takes all full slices of what waited plus the new bytes and all their encodings are usable; then the encoder got exactly these and the rest waits; otherwise it stopped at the first slice that failed, with the earlier ones sent, that one fed and still waiting |
| Uplink.UplinkTurn.FinishTurn | esp_idf_demo/main/cloud_conversation.c:544-574 | what waits is padded with zeros once, an exact multiple is not padded; succeeds exactly if that frame went out and the server answered |
| Uplink.UplinkTurn.SendTurn | esp_idf_demo/main/cloud_client.c:1953-2013 | for every split of the PCM over send calls the encoder got the padded slices of the concatenation and the messages are its outputs numbered from 0; exactly when this succeeds, and that a failing turn has sent the first of these messages |
| Uplink.MessageIsFrame | esp_idf_demo/main/cloud_client.c:1741-1808 | the bytes of a message are a frame in the format the server parses |
| Uplink.PayloadIsOnePacket | esp_idf_demo/main/cloud_conversation.c:358-388 | its payload is one length-prefixed packet, the encoder output, for the same kind of splitter as on the downlink |
| Reassembly.ParseBinaryFrames | src/api/realtime_v6.py:654-671 | accepts exactly the bodies that are one or more whole frames |
| Reassembly.ParseInvertsPrint | src/api/realtime_v6.py:654-671 | every printed list of frames parses back to the same (sequence, payload) pairs |
| Reassembly.PrintInvertsParse | src/api/realtime_v6.py:654-671 | every accepted body is what its frames print as |
| Reassembly.TurnFrames.RecordFrame | src/models/conversation_v6.py:610-617 | the highest contiguous number is the largest h with 0..h all recorded |
| Reassembly.TurnFrames.IngestFrame | src/models/conversation_v6.py:451-471 | duplicates by digest, conflicts, empty, large, over-limit frames in the order of the checks; a rejected frame leaves the table |
| Reassembly.RejectionsMean | src/models/conversation_v6.py:451-471 | the exact condition of each rejection code and of acceptance |
| Reassembly.TurnFrames.HandleBinary | src/api/realtime_v6.py:420-436 | nothing of a body that does not parse is taken; otherwise its frames up to the first rejected one, and with which code |
| Reassembly.GroupingDoesNotMatter | src/api/realtime_v6.py:420-436 | the table does not depend on how frames are grouped into messages |
| Reassembly.AcceptedIffAdmissible | src/models/conversation_v6.py:451-471 | all frames of a turn are accepted exactly when no number has two payloads and all limits hold, said without any order |
| Reassembly.OrderDoesNotMatter | src/api/realtime_v6.py:591-602 | arrival order and repetitions change neither acceptance nor the table |
| Reassembly.ReassembleTurn | src/api/realtime_v6.py:591-602 | payloads in number order, or a sequence gap |
| Reassembly.RejectsExactlyTheGaps | src/api/realtime_v6.py:594-596 | a table is rejected exactly when a number below a recorded one is missing |
| Reassembly.MessagesParseBack | src/api/realtime_v6.py:654-671 | every message of the device parses to its one frame |
| Reassembly.UplinkRoundTrip | src/api/realtime_v6.py:591-602 | frames arriving in any order with repetitions are accepted exactly when they keep the limits, and then come out as the encoder made them, in order |
| Reassembly.UplinkEndToEnd | src/api/realtime_v6.py:420-436 | the messages of a turn the device sent well, arriving in any order, repetition and grouping, are all accepted exactly when they keep the limits, and the reassembled audio is then the encoder's outputs in order |
| Reassembly.ReceiveTurn | src/api/realtime_v6.py:591-602 | the server takes the bodies of a turn one by one through its parser and table and reassembles the result, as that theorem has it |
| Reassembly.MissingFrameIsNoticed | src/api/realtime_v6.py:594-596 | a frame missing below one that arrived is rejected as a gap |
| WifiStore.VerifySucceedsIff | esp_idf_demo/main/wifi_credential_store.cc:88-119 | the verify step accepts what was just written exactly when no name and no password contains a NUL |
| WifiStore.LegacyIsWellFormed | esp_idf_demo/main/wifi_credential_store.cc:147-190 | whatever the legacy namespace holds, the list read from it is well formed and clean |
| WifiStore.PersistIsAtomic | esp_idf_demo/main/wifi_credential_store.cc:314-332 | cut at any write, the next boot finds the whole old or the whole new list; it succeeds exactly if the list reads back and no write fails, and then the new one is found; a reported failure keeps the old one exactly when the fault is not a pointer set or commit that took effect after the slot had verified |
| WifiStore.LoadIsTransparent | esp_idf_demo/main/wifi_credential_store.cc:199-239 | loading and migrating, cut anywhere, gives the stored list and does not change it |
| WifiStore.SortDescContents | esp_idf_demo/main/wifi_credential_store.cc:293-296 | sorting keeps exactly the entries |
| WifiStore.SortDescSorts | esp_idf_demo/main/wifi_credential_store.cc:293-296 | newest success first |
| WifiStore.SortDescIsStable | esp_idf_demo/main/wifi_credential_store.cc:293-296 | entries with equal counters keep their order |
| WifiStore.StepIsAtomic | esp_idf_demo/main/wifi_credential_store.cc:246-362 | one operation or reboot with any fault: whole old or whole edited list in flash, memory unchanged on failure |
| WifiStore.RunStaysGood | esp_idf_demo/main/wifi_credential_store.cc:246-362 | over any sequence: at most five entries with distinct non-empty names, in memory and flash |
| WifiStore.UpsertStores | esp_idf_demo/main/wifi_credential_store.cc:246-278 | after a successful upsert, memory and the list of the next boot hold the name once, with that password and its old counter or zero; all others are unchanged but the first one of least counter, which goes exactly if the name was new and the list full |
| WifiStore.UpsertSucceedsIff | esp_idf_demo/main/wifi_credential_store.cc:246-278 | an upsert succeeds exactly if both strings fit and have no NUL, and no write fails, of which there are so many |
| WifiStore.ReplaceStores | esp_idf_demo/main/wifi_credential_store.cc:334-362 | after a successful replacement, memory and flash hold the first five distinct names of the new list in order, with their passwords and the counters they had |
| WifiStore.LegacyHolds | esp_idf_demo/main/wifi_credential_store.cc:147-190 | the list read from the earlier namespace is the first five distinct names up to the first one without a password, with passwords, the first newest |
| WifiStore.LoadFallsBack | esp_idf_demo/main/wifi_credential_store.cc:206-213 | an unreadable active slot is replaced by the other one, which is selected; nothing is lost if that fails |
| WifiStore.LoadFallsBackToLegacy | esp_idf_demo/main/wifi_credential_store.cc:213-222 | with both slots unreadable the earlier namespace is read and stored; an empty one is an error |
| WifiStore.FailureCanChangeTheStoredList | esp_idf_demo/main/wifi_credential_store.cc:132-145 | a concrete failing pointer write after which the next boot finds the new list |
| WifiStore.MarkedIsTopIff | esp_idf_demo/main/wifi_credential_store.cc:280-307 | a marked network is above all others exactly when the 64-bit counter does not wrap |
| WifiStore.MarkedIsSafeIff | esp_idf_demo/main/wifi_credential_store.cc:246-307 | no sequence of upserts, reboots and faults evicts the network just marked, from memory or from the stored list, exactly if the mark does not wrap the 64-bit counter |
| WifiStore.UpsertKeepsTop | esp_idf_demo/main/wifi_credential_store.cc:246-278 | an upsert keeps the top network listed and on top |
| WifiStore.MarkedSurvivesUpserts | esp_idf_demo/main/wifi_credential_store.cc:246-307 | that half of it: a mark that does not wrap keeps the network listed, in memory and in flash, through any such sequence |
| WifiStore.WrappedCanBeEvicted | esp_idf_demo/main/wifi_credential_store.cc:246-307 | the other half: after a mark that wraps, at most five successful upserts evict the network just marked, from memory and from flash |
| WifiStore.Nvs.WriteSlotOnce | esp_idf_demo/main/wifi_credential_store.cc:88-119 | the slot holds the new keys up to the failing write |
| WifiStore.WifiCredentialStore.ReadSlotList | esp_idf_demo/main/wifi_credential_store.cc:43-86 | the reading loop computes the specified list or refuses the slot |
| WifiStore.WifiCredentialStore.WriteSlotList | esp_idf_demo/main/wifi_credential_store.cc:88-119 | writing and verifying a slot changes only that slot and succeeds as specified |
| WifiStore.WifiCredentialStore.PersistLocked | esp_idf_demo/main/wifi_credential_store.cc:314-332 | slot write, then pointer, as specified |
| WifiStore.WifiCredentialStore.DoUpsert | esp_idf_demo/main/wifi_credential_store.cc:246-278 | flash and memory after an upsert with any fault are those of the specified operation, whose contents the results above state |
| WifiStore.WifiCredentialStore.MarkSuccessful | esp_idf_demo/main/wifi_credential_store.cc:280-307 | flash and memory after marking with any fault |
| WifiStore.WifiCredentialStore.ReplaceFromRuntime | esp_idf_demo/main/wifi_credential_store.cc:334-362 | flash and memory after a runtime replacement with any fault |
| WifiStore.WifiCredentialStore.LoadAndMigrate | esp_idf_demo/main/wifi_credential_store.cc:199-239 | flash and memory after a boot with any fault |
| Ota.StepKeepsInv | esp_idf_demo/main/main.c:1588-1769 | every flash write, task step, reset and power cut keeps both invariants below, if the record of an update is begun in a harmless moment |
| Ota.StepKeepsBase | esp_idf_demo/main/cloud_client.c:2165-2271 | every step, whenever records are begun, keeps what is written, verified, selected, running and marked consistent |
| Ota.StepKeepsGuard | esp_idf_demo/main/main.c:1588-1769 | with such a beginning every step keeps: the record of an update under way is as complete as it should be and nobody will clear it; an image on trial has its record, no task that clears it and, once prepared, its watchdog |
| Ota.BootMovesAreSafe | esp_idf_demo/main/main.c:2076-2134 | in every run, whenever records are begun: the boot pointer moved only to the slot that was not running, whose whole image had the manifest size and hash, and an image was marked valid only after network, migration and audio had been ready together; with harmless beginnings the complete record was in flash at every move |
| Ota.MismatchIsRefused | esp_idf_demo/main/cloud_client.c:2240-2269 | in every run an image whose length or SHA-256 is not the manifest value is never verified, gets no record and never gets the boot pointer |
| Ota.MarkedAfterReady | esp_idf_demo/main/main.c:2324-2366 | every image that was marked valid had at one moment of the run been connected, migrated and with audio ready while its validation was pending |
| Ota.ConfirmClearsReported | esp_idf_demo/main/main.c:2210-2312 | the confirm task clears a record only after reporting with success that the named image did not come up |
| Ota.TrialIsWatched | esp_idf_demo/main/main.c:1711-1769 | an image on trial is the running one and the verified one; with harmless beginnings its record is found at every moment, and its watchdog is armed once the preparation is over |
| Ota.UnvalidatedImageIsAbandoned | esp_idf_demo/main/main.c:2411-2425 | a power cut on an image on trial brings back the slot that ran before; so does the watchdog, with harmless beginnings |
| Ota.StoredIsLoaded | esp_idf_demo/main/main.c:1613-1706 | a complete record is found, names its slot, and holds release, version, label, address and hash under their own keys |
| Ota.InFlightEraseLosesTheRecord | esp_idf_demo/main/main.c:2299-2398 | an erase of either task still in flight after the switch can make the new image boot without record and watchdog |
| Ota.RecordCanBeLostIff | esp_idf_demo/main/main.c:2076-2398 | in every run, whenever an update has been verified: beginning its record can end with the new image on trial without watchdog, exactly if the moment is harmful, that is if the confirm task has anything to do but report a success, the validation task anything but a failed marking, or validation is pending |
| Ota.RaceIsReachable | esp_idf_demo/main/main.c:2210-2351 | for the confirm task and for the validation task, a concrete schedule from a settled device reaches that race |
| Ota.OtaDevice.LoadPending | esp_idf_demo/main/main.c:1654-1706 | a record is found exactly when every key but the last stage is there |
| Ota.OtaDevice.PrepareBeforeNetwork | esp_idf_demo/main/main.c:1740-1769 | unreadable record: restart; record of the running slot: watchdog armed or restart; otherwise go on |
| Ota.OtaDevice.WriteInactive | esp_idf_demo/main/cloud_client.c:2165-2271 | succeeds exactly when the writes and the close succeed and the concatenated chunks have the manifest size and hash, which then is the image; otherwise the inactive slot holds a beginning of it; nothing else changes; a run of steps |
| Ota.OtaDevice.StorePending | esp_idf_demo/main/main.c:1613-1652 | the keys are written in order up to the failing write; a run of steps |
| Ota.OtaDevice.ScheduleBootSwitch | esp_idf_demo/main/main.c:2076-2134 | the pointer moves only after the complete record; on any failure it stays, and the keys the undo reached are gone; a run of steps |
| Ota.OtaDevice.NoteBusinessReady | esp_idf_demo/main/main.c:2324-2351 | the validation task starts exactly when validation is pending and network, migration and audio are ready |
| Ota.OtaDevice.MarkImageValid | esp_idf_demo/main/main.c:2353-2366 | marking ends the trial and the watchdog condition, then the record is erased; the write-ahead invariants are kept |
| Ota.OtaDevice.FireTimeout | esp_idf_demo/main/main.c:2411-2425 | a restart exactly when validation is still pending; on a prepared image on trial it brings back the other slot, trusted |
| Conversation.ConversationController.Handle | esp_idf_demo/main/conversation_controller.c:41-163 | every event moves the controller and asks for the action the specification says |
| Conversation.ConversationController.SetMaxTurns | esp_idf_demo/main/conversation_controller.c:28-39 | the turn limit as clamped by the source, always 1 to 10, with the invariant of the turn counters kept |
| Conversation.StepDecreases | esp_idf_demo/main/conversation_controller.c:41-163 | every effective non-error event strictly decreases the measure |
| Conversation.ConversationIsBounded | esp_idf_demo/main/conversation_controller.c:41-163 | the number of effective events of any run is bounded by the measure |
| Conversation.AlwaysAnEffectiveEvent | esp_idf_demo/main/conversation_controller.c:41-163 | until idle or failed there is always an event that moves the conversation |
| Conversation.WhenAsked | esp_idf_demo/main/conversation_controller.c:41-163 | the exact condition under which each action is asked for |
| Conversation.WhereItLeads | esp_idf_demo/main/conversation_controller.c:41-163 | the state each action leads to; nothing else moves but a conversation that winds down |
| Conversation.WhatItCounts | esp_idf_demo/main/conversation_controller.c:41-163 | what an event does to turn index, followup count, attempt serial and flags |
| Conversation.WhenItExpires | esp_idf_demo/main/conversation_controller.c:41-163 | the deadlines an event sets |
| Conversation.TurnsStayBelowTheLimit | esp_idf_demo/main/conversation_controller.c:105-115 | in every run that does not change the limit the turn index stays below it |
| Conversation.EveryTurnCanBeHad | esp_idf_demo/main/conversation_controller.c:69-131 | and every turn below the limit is reached by a conversation that is always answered |
| Conversation.TurnIndexNeverPassesNine | esp_idf_demo/main/conversation_controller.c:41-163 | the turn index stays at most 9, even when the limit changes during the run |
| Conversation.SubmittedAtMostTwice | esp_idf_demo/main/conversation_controller.c:41-163 | each turn is submitted at most twice |
| Conversation.DonePlayedAtMostOnce | esp_idf_demo/main/conversation_controller.c:41-163 | the closing sound is asked for at most once |
| Conversation.FreshConversation | esp_idf_demo/main/conversation_controller.c:19-163 | all of these for any run from init, with at most 313 effective events |
| Conversation.RunConversation | esp_idf_demo/main/main.c:514-797 | the driving loop ends whatever the world does, within 20 rounds; an opened conversation is closed exactly once; success means idle |
| PlaybackSession.OwnershipIsSound | esp_idf_demo/main/playback_session.c:76-124 | in every interleaving: no freed session is touched; every live session has exactly one holder; each is freed once; a successful join returned the result the owner decided |
| PlaybackSession.FreedOnlyAfterSuspended | esp_idf_demo/main/playback_session.c:279-339 | a session is freed only after its owner published and suspended, by its one holder |
| PlaybackSession.HandedOverIsCancelled | esp_idf_demo/main/main.c:703-726 | in every run a session in its second join, being detached, in the queue or with the reaper has its cancel flag set, and a join that waits in vain for the end sets it at once |
| PlaybackSession.CancelledIffTimedOut | esp_idf_demo/main/playback_session.c:242-314 | a session is cancelled, or about to be, exactly if a join of the caller on it timed out |
| PlaybackSession.NoThirdDeadline | esp_idf_demo/main/main.c:703-726 | the caller waits through at most two deadlines for a session and then lets go of it |
| PlaybackSession.ReaperWaitsForTheEnd | esp_idf_demo/main/playback_session.c:110-124 | the reaper never gives up on an owner that is still streaming; it retries only one that is slow to suspend |
| PlaybackSession.StepKeepsInv | esp_idf_demo/main/playback_session.c:241-339 | every access of caller, owner and reaper keeps the ownership invariant |
| PlaybackSession.PlaybackMemory.StartSession | esp_idf_demo/main/playback_session.c:177-239 | a started session is zeroed, has a running owner and is held by the caller |
| PlaybackSession.PlaybackMemory.RunOwner | esp_idf_demo/main/playback_session.c:76-108 | result, event bit, publication, suspension, in this order |
| PlaybackSession.PlaybackMemory.PollJoin | esp_idf_demo/main/playback_session.c:294-329 | one poll of a join with its two deadlines |
| PlaybackSession.PlaybackMemory.RunCaller | esp_idf_demo/main/main.c:703-726 | join, cancel, join again, detach as a run of specified steps; a full queue restarts the device; that it cancels and ends is stated by the results above |
| PlaybackSession.PlaybackMemory.RunReaper | esp_idf_demo/main/playback_session.c:110-124 | the reaper joins what it receives until that succeeds |
| PromptArbiter.KeysStayUnique | esp_idf_demo/main/prompt_arbiter.c:319-355 | queued entries and the playing prompt never share a key, in every interleaving of submissions with keys under 64 bytes |
| PromptArbiter.SubmitKeepsUniqueIff | esp_idf_demo/main/prompt_arbiter.c:319-355 | a submission keeps the keys apart exactly when its key is not cut, or its cut form is new, or the table is full |
| PromptArbiter.LongKeysAreNotDeduplicated | esp_idf_demo/main/prompt_arbiter.c:319-355 | a key of 64 bytes or more submitted twice is queued twice |
| PromptArbiter.ComparisonIsEquality | esp_idf_demo/main/prompt_arbiter.c:247-258 | the 64-byte comparison with a stored key is equality |
| PromptArbiter.AcceptedPromptIsPlayed | esp_idf_demo/main/prompt_arbiter.c:159-271 | a non-network prompt that is queued or in hand is never dropped: at any later moment it has been played to its end or is still pending for its waiter |
| PromptArbiter.AcceptedIsKeptIff | esp_idf_demo/main/prompt_arbiter.c:319-355 | for every accepted submission of a non-network prompt, duplicate or not: a waiter for its key comes back without a timeout only after a non-network prompt under that key was played, in every interleaving, exactly if no network prompt is pending under the key |
| PromptArbiter.SubmittedIsPlayedIff | esp_idf_demo/main/prompt_arbiter.c:319-355 | the same for the very prompt submitted: a waiter for its key comes back without a timeout only after that prompt itself was played, in every interleaving, exactly if no other prompt is pending under the key |
| PromptArbiter.PromptLeavesIff | esp_idf_demo/main/prompt_arbiter.c:159-234 | any prompt leaves the arbiter only by the end of its play, by the connection overtaking a network prompt, or by being put back into a full table |
| PromptArbiter.DeferredCanBeLost | esp_idf_demo/main/prompt_arbiter.c:195-212 | from every reachable choice of a network prompt that the connection asks for there is a run in which it is lost that way |
| PromptArbiter.DuplicateOfNetworkPromptIsAccepted | esp_idf_demo/main/prompt_arbiter.c:325-338 | a bell submitted under the key of a queued network prompt is accepted and changes nothing |
| PromptArbiter.DuplicateOfNetworkPromptIsLost | esp_idf_demo/main/prompt_arbiter.c:159-186 | in the run that follows the connection comes, neither prompt is ever played, and the waiter hears OK |
| PromptArbiter.NetworkPromptsAreRechecked | esp_idf_demo/main/prompt_arbiter.c:188-234 | the prompt asking for a network begins only if the recheck saw no connection, the one announcing it only if it saw one, and both only outside a conversation; prompts end one at a time in the order they began |
| PromptArbiter.WaiterHearsOnlyTheLast | esp_idf_demo/main/prompt_arbiter.c:236-271 | a waiter gets its prompt result only if that prompt was the last to end, otherwise OK |
| PromptArbiter.NoWakeUpIsLost | esp_idf_demo/main/prompt_arbiter.c:188-234 | a blocked owner with no notification given or owed has nothing to play, unless a conversation began between choice and recheck of a network prompt |
| PromptArbiter.WakeUpIsLostIff | esp_idf_demo/main/prompt_arbiter.c:188-234 | in every interleaving the owner sleeps over a playable prompt exactly if a recheck deferred a network prompt while another was playable and no notification was given or owed, and nothing has owed one since |
| PromptArbiter.InterruptionStrandsIff | esp_idf_demo/main/prompt_arbiter.c:196-218 | a conversation that begins before the recheck strands another prompt exactly if the rechecked one is still relevant, no notification is given or owed, and a non-network prompt is queued |
| PromptArbiter.InterruptionStrandsAPrompt | esp_idf_demo/main/prompt_arbiter.c:196-218 | a concrete run in which that happens |
| PromptArbiter.BestIsMostUrgent | esp_idf_demo/main/prompt_arbiter.c:159-186 | the choice is a playable entry of highest priority, the first such one |
| PromptArbiter.UrgencyOrder | esp_idf_demo/main/prompt_arbiter.c:159-186 | which prompts go before which |
| PromptArbiter.Arbiter.SelectNext | esp_idf_demo/main/prompt_arbiter.c:159-186 | the scan drops exactly the irrelevant network prompts and returns that choice |
| PromptArbiter.Arbiter.SubmitPrompt | esp_idf_demo/main/prompt_arbiter.c:319-355 | result and new table of a submission; the owner is notified, after the critical section, exactly if the prompt went in |
| PromptArbiter.Arbiter.RecheckPrompt | esp_idf_demo/main/prompt_arbiter.c:195-218 | what the recheck puts back, lets go, or starts |
| PromptArbiter.Arbiter.PollKey | esp_idf_demo/main/prompt_arbiter.c:236-271 | a poll ends exactly when the key is neither queued nor playing |
| OutageNotifier.OnePromptPerOutage | esp_idf_demo/main/app_network.cc:50-184 | each outage commits at most one prompt; the announced recoveries are, in order, the prompted outages that ended |
| OutageNotifier.CommitsOnlyInOutage | esp_idf_demo/main/app_network.cc:50-97 | every prompt of a run was committed at one moment of it, for the outage that was on then, unprompted and not suppressed |
| OutageNotifier.DeadlineCountsFromTheStart | esp_idf_demo/main/app_network.cc:112-127 | the deadline of every prompted outage counts from the time at which it began in the run |
| OutageNotifier.NoOutageIsForgotten | esp_idf_demo/main/app_network.cc:50-97 | while an outage is due for its prompt, the change bit is set or about to be, or a pass that has read it is under way, unless the task found the device connected |
| OutageNotifier.DueIsPrompted | esp_idf_demo/main/app_network.cc:50-97 | and from every such state an undisturbed run prompts it |
| OutageNotifier.ConnectedIsNotPrompted | esp_idf_demo/main/app_network.cc:85-88 | a pass goes on to the prompt only after it found the device not connected |
| OutageNotifier.PromptsAreNotMuchTooEarly | esp_idf_demo/main/app_network.cc:60-97 | a prompt comes less than two ticks before the deadline of its own outage, and never before it if its pass read the clock at or after it |
| OutageNotifier.EarlyLookCanPromptEarly | esp_idf_demo/main/app_network.cc:70-97 | every pass that reads the clock before the deadline has a run that prompts before it |
| OutageNotifier.Notifier.LookAtOutage | esp_idf_demo/main/app_network.cc:60-68 | the reading of the flags in one critical section; it goes on only if the outage that is on has no prompt yet |
| OutageNotifier.Notifier.ReadTheClock | esp_idf_demo/main/app_network.cc:70-83 | outside the lock, the wait in whole ticks for the outage that was read; it cannot end two ticks early |
| OutageNotifier.Notifier.CommitPrompt | esp_idf_demo/main/app_network.cc:89-96 | check and mark in one critical section; a prompt that goes out is for an outage later than all prompted before |
| OutageNotifier.Notifier.BeginRuntimeOutage | esp_idf_demo/main/app_network.cc:112-127 | a new outage begins exactly if none is on and outages are not suppressed |
| OutageNotifier.Notifier.HandleConnected | esp_idf_demo/main/app_network.cc:145-176 | the end of an outage; its recovery is announced exactly if there is a prompt whose recovery was not |
| Capture.AvgAbs | esp_idf_demo/main/audio_in.c:53-68 | the mean magnitude of the 16-bit samples |
| Capture.RecordAfterSpeechStart | esp_idf_demo/main/audio_in.c:168-273 | the bytes are the prefix and the microphone data up to the first chunk at which the stop rule or the buffer ends the capture; a longer prefix is refused |
| Capture.StreamAfterSpeechStart | esp_idf_demo/main/audio_in.c:403-504 | the callback got exactly those bytes, in order, and the capture ended at the same rule |
| Capture.RecordersAgree | esp_idf_demo/main/audio_in.c:168-504 | both recorders stop after the same chunk for the same reason on the same data |
| Capture.NeverOverfullIffPrefixFits | esp_idf_demo/main/audio_in.c:403-450 | no capture outgrows the buffer exactly when the prefix fits; the streaming recorder delivers a longer one |
| Capture.RunIsMaximal | esp_idf_demo/main/audio_in.c:226-246 | the silent span of the stop rule is the maximal trailing run of silent chunks |
| Capture.VadStepHolds | esp_idf_demo/main/audio_in.c:226-246 | the running counters are voice begun and the length of that run |
| Capture.WaitForSpeechStart | esp_idf_demo/main/audio_in.c:275-388 | speech starts at the first armed chunk where the loud run covers the hold span, and the prefix is the last bytes of the armed audio; a failing read before that ends the wait with its error, and otherwise it times out |
| Capture.PrefixHoldsTheRun | esp_idf_demo/main/audio_in.c:351-377 | the prefix ends with the whole loud run, at least the hold span long, all chunks at or above the threshold |
| Capture.AppendSliding | esp_idf_demo/main/audio_in.c:351-360 | the sliding buffer keeps exactly the last bytes |
| Wav.ParseWav | esp_idf_demo/main/audio_out.c:434-532 | accepts a file exactly when its header, every chunk and every format chunk are good and both kinds are present; the last format and the last data chunk make the view |
| Wav.ViewIsInside | esp_idf_demo/main/audio_out.c:449-530 | the view of an accepted file lies inside it, in one of the four layouts |
| Wav.WalkIsOrdered | esp_idf_demo/main/audio_out.c:449-525 | chunks come in order and do not overlap |
| Wav.ValidateLayout | esp_idf_demo/main/audio_out.c:227-262 | the view is cut down to whole frames, or refused if there is none |
| Wav.PlayView | esp_idf_demo/main/audio_out.c:1117-1236 | the codec gets one 16-bit sample a frame, the left channel of all four layouts, as many whole buffers as it takes; OK exactly if it opened, took all and closed |
| Wav.PlayWavBuffer | esp_idf_demo/main/audio_out.c:1280-1304 | from the bytes of a file to samples: a refused file plays nothing and says which error; for an accepted one with a whole frame the codec gets the left channel of exactly the whole frames of its view, which lies inside the file, as far as it takes them, and OK means all of it |
| JpegIndex.IndexIsUnique | esp_idf_demo/main/idle_video.c:46-105 | only one index fits a file, so every chunked reading finds that of a single scan |
| JpegIndex.FramesAreDisjoint | esp_idf_demo/main/idle_video.c:70-88 | frames are ordered, disjoint and in bounds |
| JpegIndex.ClosesAt | esp_idf_demo/main/idle_video.c:73-88 | an EOI closes the open frame as the next frame of the index |
| JpegIndex.IdleVideo.ScanByte | esp_idf_demo/main/idle_video.c:66-92 | one byte keeps the index exact, or the capacity is exceeded |
| JpegIndex.IdleVideo.IndexJpegFrames | esp_idf_demo/main/idle_video.c:46-105 | for any reads the index is that of all that was read, with the maximum frame size; errors for a frame left open, no frame, and one frame too many |
| Direction.BucketsAgree | esp_idf_demo/main/wake_word_service.c:110-186 | both passes compute the same bucket for every angle |
| Direction.DirectionHistory.Store | esp_idf_demo/main/wake_word_service.c:63-83 | the ring holds the last 24 samples |
| Direction.DirectionHistory.Survey | esp_idf_demo/main/wake_word_service.c:103-143 | bucket energies and the peak of the fresh samples |
| Direction.BestNeighbourhood | esp_idf_demo/main/wake_word_service.c:153-167 | the first bucket whose three-bucket neighbourhood has maximal energy |
| Direction.DirectionHistory.Pick | esp_idf_demo/main/wake_word_service.c:171-194 | the first loudest fresh sample of the cluster |
| Direction.DirectionHistory.SelectDirection | esp_idf_demo/main/wake_word_service.c:85-203 | with fresh energy the direction is that of the loudest fresh sample of the best neighbourhood; with silent samples 90; without fresh ones the latest |

## Left out

- HTTP and WebSocket transport, JSON, header negotiation, URL building, logging, display code, metrics.
- Locks are taken to succeed: the firmware waits for them without limit; a failing lock call is not modelled.
- Weak memory ordering: every atomic or locked access is one step of an interleaving.
- Buffers and files of 2^32 bytes and more, where offset arithmetic of the firmware would wrap, other than the frame length of the downlink.
- Liveness: that a task is scheduled at all is not stated; what is stated instead is that no wake-up is lost and that bounded measures decrease.
- JitterPlayback: reopening a stream after it was closed, and sending into a ring buffer that close has already deleted, are not steps of the model.
- JitterPlayback: what the codec gets from a stream after a codec error, which close reports; where the ring buffer's storage wraps, which only decides how many bytes one receive returns.
- Pipeline: the queue byte metrics, and task creation that fails before the first read; whether an allocation of no bytes succeeds is left to the environment.
- Pipeline.StreamRuntime.ReadChunk: takes the scan of the buffer as one step; the parser loop behind it is `Framing.FrameStream.Consume`.
- Reassembly: turn states, activity limits and the events sent back to the device, and decoding and transcription behind the reassembled frames.
- WifiStore: reads of flash do not fail, one writer at a time, and the runtime SSID list has no effect on the store.
- Ota: setting the boot partition either moves the pointer or reports failure, the library refuses to begin an update while the running image is on trial, marking an image valid concerns the running one, there are two application slots, and the reports to the cloud have no effect on flash.
- PlaybackSession: creation of the reaper, and audio inside the owner task, whose result is arbitrary.
- PromptArbiter: the playing itself, whose result is arbitrary, and `prompt_arbiter_wait_idle`.
- OutageNotifier: the tick rate is the 100 Hz default; the connection state the task asks the Wi-Fi manager for is arbitrary.
- Capture: opening the microphone, failing allocations, level metrics, and a null prefix with a non-zero length.
- Wav: the sample rate is not checked by the source and is not interpreted; every error of the codec is one error.
- JpegIndex: `IdleVideo.IndexJpegFrames` speaks about the bytes that were read; after a read error that may not be the whole file.
- Direction: the minimum and maximum angles and the channel difference, which are only reported; a sample stored between the two passes.
- Nothing of the firmware was executed.
