# A verified model of the streaming core

This project models the byte-and-time heart of a live streaming library in Dafny and proves what it is for. The model has
three layers that share one vocabulary: media packets, byte strings, and integer milliseconds.

- **The wire path.** A packet is split into NAL units, length-prefixed, wrapped in an FLV tag, re-parsed piece by piece by
  the transport, cut into RTMP chunks, reassembled by the ingest reader and decoded back into a packet
  (`H264`, `ExpGolomb`, `Media`, `Flv`, `FlvTags`, `Mux`, `MuxRoom`, `Chunks`, `ChunkReading`, `Publish`, `Amf0`, `Transports`,
  `TransportRuns`, `Relays`, `Acknowledgements`, `Servers`, `ServerReplies`). The wire formats are those of Adobe RTMP 1.0 (sections 5.3 and 5.4), the
  Adobe Flash Video File Format 10.1 (Annex E), ITU-T H.264 (Annex B and section 9.1) and AMF0 (sections 2.5 and 2.10).
- **The engine and the session.** A bounded buffer, the engine that drains it into whichever transport is attached, the
  muxer's timebase that survives reconnects, the recorder beside it, and the session that dials on a backoff schedule
  (`Backpressure`, `Engines`, `StreamEngines`, `EngineRoom`, `EngineRuns`, `Timeline`, `TagLog`, `EngineTimeline`,
  `EngineWire`, `EngineIngest`, `EngineTimes`, `EngineConfigs`, `EngineMetadata`, `Resume`, `Evictions`, `Counterexamples`,
  `Decoding`, `Recording`, `RecordingFile`, `Backoff`, `Sessions`, `SessionRuns`, `SessionResumes`, `Watchdog`). Every public call holds the engine's one lock, so a call is one atomic step
  and a run is a sequence of calls.
- **HLS.** The fMP4 segment writer that patches its own data offsets, a player that reads segments back, and the segmenter
  with its clock, tick grid, cuts, playlist and stored files (`Mp4`, `Mp4Player`, `Segmenter`, `HlsRuns`, `HlsCuts`, `HlsStray`,
  `HlsGates`, `HlsTimes`, `HlsGrid`, `HlsAudio`, `HlsWindow`, `HlsOutputs`). ISO/IEC 14496-12 section 8.8 and RFC 8216 sections 4.3.3.1, 4.3.3.2 and 6.2.2 apply.

Where the source updates an object in place there is a class with the same fields and loops. Each of its methods is proved
equal to a step function on the object's abstract value (`View()`), and the theorems about runs are lemmas about those step
functions. A transport is a fail-stop byte log: it takes bytes until a write fails, keeps the part that fitted, and fails
forever after. What comes from outside (clock readings, the connector's answer, a random draw, a flush or health-check outcome)
is a parameter of the call.

`dafny verify dfyconfig.toml` checks everything.

## What the code does that its comments do not say

- The last of the three loops that trim the tail of the last NAL unit never does anything (`H264.TrimTail`), and neither does the
  range check on chunk stream ids (`Chunks.ReadBasic`): the three header forms cannot express an id out of range.
- A message that begins with format 3 does not add the time between the two before it again, as section 5.3.1.2.4 of Adobe RTMP
  1.0 would: it takes over the time of the message before, and so is right exactly for one sent at the same time
  (`Chunks.BareStart`).
- The two-byte audio configuration carries the profile field of the ADTS header, one less than the audio object type
  (`Media.AdtsRoundTrip`).
- A finished session is not terminal: a start whose connector answers revives it (`SessionRuns.FinishedUntilStarted`). A finish
  whose transport shutdown fails leaves a session that says it is connected with nothing attached (`SessionRuns.FinishStrands`),
  and without another start or finish it stays so, dials no more and muxes no more (`SessionRuns.StrandedForGood`).
- A finish that fails forgets the batch it had drained, and it fails without any I/O error too: one audio packet more than
  100 ms behind its track, which a tick would rebase and send, is refused and gone (`EngineRuns.SlipForgotten`). A batch is
  kept exactly under a condition on the state before the call (`EngineRuns.FinishLoses`, `EngineRuns.FinishCount`).
- A packet can be on the wire and in the buffer: when the transport fails inside a tag's four trailing size bytes the peer has
  the whole frame, and the packet goes back to be sent again (`EngineWire.SeenAndReturned`). This is at most one frame on each
  connection that failed (`EngineWire.WireTellsMuxed`), and `EngineWire.RestoredHeadSeen` says exactly when.
- Attaching over an attached transport forgets the timebase of both tracks: the stream goes back exactly when a frame above
  zero was seen before (`EngineTimeline.ReattachForgets`, and `Counterexamples.ReattachedBehind` from a new engine).
- An eviction during an outage can take the keyframe the stream was to resume on, and the wait for a new one is not armed
  again: the next connection starts on whatever video packet is left (`Evictions.EvictionOrphans`, and
  `Counterexamples.EvictedKeyframe` from a new engine).
- A finish that fails on a connection that has shown no video yet can lose the keyframe the stream was to resume on: it writes no
  preamble, so a keyframe whose configuration is only cached is refused, and what is pushed next is the start
  (`Resume.FailedFinishReady`, `Evictions.FailedFinishDecides`, and `Counterexamples.KeyframeLostByFinish` from a new engine).
- Metadata is not once per connection: each tick up to the first one that succeeds writes it again while the transport lives
  (`EngineMetadata.TickAnnounces`, and `EngineMetadata.MetadataTwice` from a new engine).
- Once any video packet was seen, even one that is dropped, audio never cuts an HLS segment again: short of a finish and of a video
  keyframe that is taken, nothing more is written exactly when video came before audio was due (`HlsStray.UnkeyedWrites`). It
  happens before the init segment is written (`HlsStray.StrayBeforeInit`) and behind one without video
  (`HlsStray.StrayAfterInit`), both from a new output.

## Model

| member | source | states |
|---|---|---|
| H264.SplitAnnexB | core/src/codecs/h264.rs:23-87 | the splitter's loops find exactly the NAL units between start codes |
| H264.FindGroups | core/src/codecs/h264.rs:24-51 | the grouping loop: the group boundaries account for every unit, for 3-byte and 4-byte codes in any mix |
| H264.ReadRun | core/src/codecs/h264.rs:28-49 | one run of the grouping loop stops at the first start code after its unit, or at the end |
| H264.TrimTail | core/src/codecs/h264.rs:67-85 | the tail after the last group loses its zero padding and a bare trailing start code; the further loop over trailing four-byte codes never fires |
| H264.NalsCarriable | core/src/codecs/h264.rs:23-87 | every unit is non-empty, does not end in 0 and contains no start code, for every byte string |
| H264.NalsAnnexB | core/src/codecs/h264.rs:182-190 | splitting what was joined gives the units back if and only if each of them is carriable |
| H264.SplitJoinSplit | core/src/codecs/h264.rs:23-87 | split, join, split is split, for every byte string |
| H264.ToAnnexB | core/src/codecs/h264.rs:182-190 | the joining loop writes a 4-byte start code before each unit |
| H264.PrefixRoundTrip | core/src/codecs/h264.rs:138-172 | a byte string parses to a list of units exactly when it is the length-prefixed form of that list and every unit has a length from 1 to 2^32 - 1 |
| H264.ToLengthPrefixed | core/src/codecs/h264.rs:138-146 | the writing loop produces the length-prefixed form |
| H264.FromLengthPrefixed | core/src/codecs/h264.rs:157-172 | the reading loop parses it, and refuses truncation, overrun and zero lengths |
| ExpGolomb.BitReader.Bits | core/src/codecs/h264.rs:212-218 | reading n bits yields their value in a 32-bit accumulator and advances by n |
| ExpGolomb.BitReader.Ue | core/src/codecs/h264.rs:221-234 | returns k exactly when the code of k stands at the position, for all k up to 2^32 - 2, without overflow, and advances by 2 floor(log2(k+1)) + 1 |
| ExpGolomb.BitReader.Se | core/src/codecs/h264.rs:237-241 | returns exactly the signed value whose code stands at the position |
| ExpGolomb.CodeUnique | core/src/codecs/h264.rs:221-234 | at most one number's code stands at a position |
| ExpGolomb.SignedCodeInjective | core/src/codecs/h264.rs:237-241 | the signed mapping takes different values to different codes |
| Media.ExtractSets | core/src/codecs/h264.rs:251-281 | the reading loops return the first SPS and PPS of a configuration record, or nothing when it is malformed |
| Media.RecordOfMany | core/src/codecs/h264.rs:251-281 | a record that lists any number of parameter sets gives the first of each kind, and nothing when it has none of one kind |
| Media.AvccRoundTrip | core/src/codecs/h264.rs:116-134 | a built record yields its parameter sets if and only if their lengths fit 16 bits |
| Media.RecordHeader | core/src/codecs/h264.rs:116-134 | a built record says version 1, four-byte lengths and one set of each kind, and carries the profile, compatibility and level bytes of its SPS |
| Media.ConfigFromUnits | core/src/codecs/h264.rs:90-105 | a keyframe brings a configuration if and only if its units have parameter sets of both kinds; it is built from the latest of each among the fewest first units that do |
| Media.AdtsRoundTrip | core/src/codecs/aac.rs:31-106 | for every header with or without checksum: the frame is unwrapped to its raw data and its configuration has the header's profile, frequency index and channels |
| Media.NotAdts | core/src/codecs/aac.rs:31-34 | data without the twelve sync bits, or shorter than a header, is taken as it is and configures nothing |
| Flv.OffsetRoundTrip | core/src/mux.rs:407-410 | the 24-bit composition offset sign-extends back to the clamped offset, and to the offset itself if and only if it is in range |
| Flv.ClampsNearest | core/src/mux.rs:401-410 | out of range, times and offsets become the nearest that the format can carry |
| Flv.DecodeVideoBody | core/src/flv.rs:58-96 | a written video body decodes to the same key flag, presentation time dts + offset and joined NAL units |
| Flv.DecodeOtherBodies | core/src/flv.rs:48-124 | configuration and audio bodies decode to what was written |
| Flv.FramesDecoded | core/src/flv.rs:58-96 | a video tag decodes to a packet if and only if its body is an H.264 frame of some frame type, signed 24-bit offset and length-prefixed units, and the packet is that frame's |
| Flv.OthersDecoded | core/src/flv.rs:48-124 | every other result comes of a configuration or AAC body of its kind; other tag types decode to nothing |
| Flv.OthersDecode | core/src/flv.rs:48-124 | and each such body, whatever its flags, decodes to its configuration or frame |
| FlvTags.IncrementalParsing | core/src/rtmp/mod.rs:374-436 | for every way of cutting a byte string into feeds: same tags, same phase, buffer and current head, and a rejection exactly when the single feed rejects |
| FlvTags.RejectedEmpty | core/src/rtmp/mod.rs:379-395 | a rejection happens in the header phase only, completes no tag and consumes nothing |
| FlvTags.HeaderRejects | core/src/rtmp/mod.rs:379-395 | a stream is rejected if and only if its first 13 bytes are there and are no FLV header of version 1 with a data offset from 9 to 4096 |
| FlvTags.TagsNeverRejected | core/src/rtmp/mod.rs:396-433 | behind the header no byte string is rejected |
| FlvTags.StepDecreases | core/src/rtmp/mod.rs:377-433 | each turn of the loop shrinks the buffer or, with equal buffer, the phase rank: zero-size bodies terminate too |
| FlvTags.ParseFile | core/src/rtmp/mod.rs:374-436 | an encoded file parses to its tags and leaves an empty parser |
| FlvTags.FlvTagParser.FeedBytes | core/src/rtmp/mod.rs:374-436 | the object's loop computes that parse |
| Mux.PutPieces | core/src/mux.rs:373-388 | writing a tag in pieces is writing it at once, wherever the sink fails |
| Mux.ToleranceIs | core/src/mux.rs:312-340 | a packet up to 100 ms behind its track is put on the watermark, one further behind is refused, every other keeps its time |
| Mux.HeaderTsIsLeast | core/src/mux.rs:248-250 | header-style tags have the least time that is neither negative nor before a frame of either track |
| Mux.RetryNeverOrdering | core/src/engine.rs:474-494 | the second try after a rebase is never an ordering error |
| MuxRoom.WriteSucceeds | core/src/mux.rs:312-388 | a packet is written if and only if, said before the call, its configuration is known, its time is within tolerance and its bytes find room |
| MuxRoom.WriteOrRebaseSucceeds | core/src/engine.rs:474-494 | with the rebase, if and only if its configuration is known and its bytes find room: time no longer matters |
| Mux.FlvMuxer.PutPacket | core/src/mux.rs:312-370 | the object writes the header, a missing sequence header and the packet's tag, in that order, with the time clamped to the track's watermark or refused |
| Mux.FlvMuxer.PutOrReanchor | core/src/sink.rs:119-129 | write, and on an ordering error rebase and write once more |
| Mux.FlvMuxer.PutMetadata | core/src/mux.rs:254-260 | the metadata tag at the header time |
| Mux.FlvMuxer.PutVideoSequence | core/src/mux.rs:263-280 | the video sequence header, once per muxer whatever configuration comes later |
| Mux.FlvMuxer.PutAudioSequence | core/src/mux.rs:282-297 | the same for audio |
| Mux.FlvMuxer.PutCodecs | core/src/mux.rs:300-309 | both known configurations, video first, stopping at a failure |
| Mux.FlvMuxer.Reanchor | core/src/mux.rs:192-195 | the origin that puts a packet on its track's watermark |
| Timeline.PutTagSeen | core/src/mux.rs:373-388 | the peer has one more tag exactly when the sink took its header and body, even if the write then failed in the trailing size; never a partial tag |
| TagLog.FrameShownIs | core/src/engine.rs:474-494 | writing a packet, with the rebase to fall back on, shows the peer at most its one frame, and shows it if and only if its configuration is known and the sink takes everything up to the end of its body |
| Timeline.PacketSound | core/src/mux.rs:312-370 | a written packet keeps the peer's timeline ordered and below the watermarks, even when the write fails midway |
| Timeline.HeaderTagSound | core/src/mux.rs:248-250 | a header-style tag sits at or above every media tag before it |
| Timeline.WriteOrRebaseSound | core/src/engine.rs:474-494 | so does the rebase and retry |
| Timeline.ReconnectSound | core/src/mux.rs:182-187 | a fresh muxer with the restored watermarks continues the old timeline |
| Chunks.FrameMessage | core/src/rtmp/mod.rs:1078-1107 | the writing loop produces the message's chunks: a full header, then continuations without extended timestamp |
| Chunks.ReadBasic | core/src/rtmp/mod.rs:212-226 | the decoded stream id is always below the limit, so the range check never refuses |
| Chunks.Demultiplex | core/src/rtmp/mod.rs:204-293 | any interleaving of messages at chunk boundaries, begun with a full header or, on a stream that carried a message before, with any shorter format that the messages' absolute times, types and lengths allow, on ids of one, two or three bytes, and called off by an abort anywhere: every message comes out whole with its absolute time, in order of last chunks, every byte used, from any reader in step |
| Chunks.DemultiplexFresh | core/src/rtmp/mod.rs:204-293 | the same from a new reader and sender |
| Chunks.BareStart | core/src/rtmp/mod.rs:245-292 | a message begun with format 3 comes out as sent if and only if it has the time, type and length of the message before it on its stream |
| Chunks.FramedRunRoundTrip | core/src/rtmp/mod.rs:1078-1107 | messages framed one after the other, with chunk sizes announced in band and clamped on the reading side, come out unchanged to the last byte |
| ChunkReading.ChunkReader.ReadMsg | core/src/rtmp/mod.rs:204-293 | the object's loop returns the next message and counts exactly the bytes it took |
| ChunkReading.ChunkReader.ReadOne | core/src/rtmp/mod.rs:210-292 | one turn: one chunk of any of the four header formats, as `Chunks.Demultiplex` is about |
| ChunkReading.ChunkReader.SetChunkSize | core/src/rtmp/mod.rs:181-187 | refuses zero, clamps to 0xFFFFFF, changes nothing else |
| ChunkReading.ChunkReader.Abort | core/src/rtmp/mod.rs:197-201 | forgets one stream's partial message and nothing else |
| Publish.WireTransparent | core/src/rtmp/mod.rs:852-888 | an FLV stream written in any pieces, framed with any chunk size and read back decodes as its tags do one by one |
| Relays.TagsAreRelayed | core/src/rtmp/mod.rs:852-888 | over any successful run a reader takes from the wire exactly what was sent; the messages of types 8, 9 and 18 among it are one by one and in order the sendable tags, on the connection's message stream; a script tag reads as "@setDataFrame", "onMetaData" and what follows its first string; the byte counter is the wire's length modulo 2^64 |
| Publish.EndToEnd | core/src/mux.rs:312-388 | whatever packets a muxer accepts, ingest decodes exactly their frames, in order, each behind the sequence header it brought |
| Publish.EndToEndFresh | core/src/mux.rs:312-388 | the same from a fresh muxer |
| Publish.FramesInRange | core/src/flv.rs:58-96 | inside the format's ranges a frame has the emitted dts, the normalized pts even when dts was clamped, the key flag, and data with the same NAL units |
| Publish.FrameDecodes | core/src/flv.rs:48-124 | the decoder turns a written media tag into the frame that the packet and the timeline prescribe |
| Publish.PacketDecodes | core/src/mux.rs:312-370 | one written packet adds its configuration tag and its frame to what the peer decodes |
| Publish.RunDecodes | core/src/mux.rs:312-370 | the same over any list of packets |
| Decoding.WriteOrRebaseDecodes | core/src/sink.rs:119-129 | with the rebase to fall back on, a packet adds its configuration and its frame to what the output decodes to as far as they find room, even when the write fails midway |
| Amf0.RoundTrip | core/src/rtmp/amf0.rs:267-273 | any sequence of written values reads back as exactly those values, empty keys included |
| Amf0.StringRoundTrip | core/src/rtmp/amf0.rs:86-91 | a string survives if and only if it is shorter than 65536 bytes |
| Amf0.AllMoves | core/src/rtmp/amf0.rs:203-273 | what is read depends on nothing but the bytes from there on |
| Amf0.OtherForms | core/src/rtmp/amf0.rs:203-263 | the forms that are only read: undefined, any non-zero boolean as true, and arrays cut off before or inside their end marker |
| Amf0.Writer.PutNumber | core/src/rtmp/amf0.rs:72-76 | appends marker and eight bytes |
| Amf0.Writer.PutBoolean | core/src/rtmp/amf0.rs:79-83 | appends marker and flag |
| Amf0.Writer.PutString | core/src/rtmp/amf0.rs:86-91 | appends marker, 16-bit length and bytes |
| Amf0.Writer.PutNull | core/src/rtmp/amf0.rs:94-97 | appends the marker |
| Amf0.Writer.PutEcmaArray | core/src/rtmp/amf0.rs:101-111 | the loop over entries, with count and end marker |
| Amf0.Writer.PutObject | core/src/rtmp/amf0.rs:114-133 | the loop over mixed fields, with end marker |
| Amf0.Reader.TakeEntries | core/src/rtmp/amf0.rs:207-238 | the entries loop, with the one-byte step back at an empty key; the mutual recursion terminates on the remaining input for every byte string |
| Amf0.Reader.TakeValue | core/src/rtmp/amf0.rs:242-263 | one value of any kind |
| Amf0.Reader.TakeAll | core/src/rtmp/amf0.rs:267-273 | every value up to the end or the first bad marker |
| Backpressure.BoundedBuffer.PushBack | core/src/backpressure.rs:35-42 | the new packet is kept, the oldest goes when the buffer is full, both are counted |
| Backpressure.BoundedBuffer.PopOldest | core/src/backpressure.rs:52-54 | takes the front packet |
| Backpressure.BoundedBuffer.PushFrontAll | core/src/backpressure.rs:60-65 | returns packets to the front in their order, uncounted |
| Backpressure.BoundedBuffer.CutToKeyframe | core/src/backpressure.rs:71-80 | drops exactly what precedes the newest keyframe, nothing when there is none |
| Backpressure.BoundedBuffer.RecordDrop | core/src/backpressure.rs:90-92 | counts one drop |
| StreamEngines.StreamEngine.PushPackets | core/src/engine.rs:319-358 | pushes, then applies the drop policy of the profile |
| StreamEngines.StreamEngine.AttachTransport | core/src/engine.rs:249-265 | a fresh muxer that takes over the saved timebase |
| StreamEngines.StreamEngine.DetachTransport | core/src/engine.rs:272-309 | saves timebase and configurations, cuts to the newest keyframe, arms the wait for one |
| StreamEngines.StreamEngine.ConfigureWith | core/src/engine.rs:419-432 | caches configurations and hands them to an attached muxer |
| StreamEngines.StreamEngine.DrainForMux | core/src/engine.rs:390-412 | empties the buffer into a batch in decode order, packets of the same time in the order they came, dropping and counting orphaned inter-frames |
| Engines.SortSorts | core/src/engine.rs:402-411 | the sort puts packets in decode order and keeps, for every time, those of that time in the order they came |
| Engines.BatchInOrder | core/src/engine.rs:390-412 | so is every batch, and it has for every time exactly the kept packets of that time |
| EngineTimes.FirstTickTimes | core/src/engine.rs:440-537 | on a fresh timebase the first tick's origin is the least decode time of all packets kept, and every frame shown has its packet's decode time less that, unclamped |
| StreamEngines.StreamEngine.SendAll | core/src/engine.rs:472-495 | muxes packets up to the first failure, rebasing where the clock jumped |
| StreamEngines.StreamEngine.PutPreamble | core/src/engine.rs:464-471 | metadata on a fresh connection, then known sequence headers |
| StreamEngines.StreamEngine.TickOnce | core/src/engine.rs:440-537 | one pump step; what did not reach the wire returns to the front of the buffer |
| StreamEngines.StreamEngine.FinishStream | core/src/engine.rs:604-634 | the strict final drain |
| EngineRuns.StepConserves | core/src/engine.rs:319-634 | every call, finishing included, keeps as multisets pushed = muxed + dropped + lost by a finish + buffered, the counters equal to those lists, and the buffer within its budget |
| EngineRuns.DropPolicy | core/src/engine.rs:342-358 | from 15 packets on the aggressive profile, and from 120 on the balanced one, the buffer is cut to its newest keyframe if it has one; below that, and under the lenient profile, pushing drops only what does not fit |
| EngineRuns.BudgetKept | core/src/backpressure.rs:35-42 | of any packets pushed into a new engine the newest 30, 120 or 480, by profile, find room |
| EngineRuns.TickReports | core/src/engine.rs:440-537 | a successful tick reports the number of packets it muxed and leaves nothing buffered; an unhealthy transport is reported and changes nothing |
| EngineRuns.PacketConservation | core/src/engine.rs:319-634 | the same over every run from a new engine, failing ticks and finishes included; nothing is lost if and only if every finish of the run meets its condition |
| EngineRuns.FinishCount | core/src/engine.rs:604-634 | a finish keeps pushed = muxed + dropped + buffered if and only if, before the call, nothing waits, or the flush succeeds, each packet in its turn has a known configuration and a time within tolerance, and the bytes of all find room; otherwise the count is short by the batch |
| EngineRuns.FinishLoses | core/src/engine.rs:604-634 | a finish loses exactly its batch when that condition fails, and nothing when it holds |
| EngineRuns.SlipForgotten | core/src/engine.rs:604-634 | with a live transport one packet 500 ms behind its track is lost by a finish and sent by a tick |
| EngineRuns.NothingLost | core/src/engine.rs:319-634 | between any two calls of a run whose finishes keep their batches, pushed = muxed + dropped + buffered, as multisets and in the counters |
| EngineWire.WireTellsMuxed | core/src/engine.rs:319-634 | over every run the frames on the wire are, one by one and in order, those of the packets counted as muxed, and besides them at most one more at the end of each connection that failed, or those a failed finish had written |
| EngineWire.RestoredHeadSeen | core/src/engine.rs:455-537 | a failed tick returns the k-th packet of its batch to the front of the buffer although the peer saw its frame if and only if, said before the tick, all packets up to it are known and the transport takes everything up to the end of its body but not the four bytes behind it |
| EngineWire.SeenAndReturned | core/src/engine.rs:455-537 | the input where it was: the transport fails inside the trailing size, the frame is on the wire and the packet in the buffer |
| EngineIngest.RunDecodes | core/src/engine.rs:319-634 | over every run all connections together decode to the frames of the packets so told, with data, key flag and both times, and those of them that count are exactly the muxed ones, in order |
| EngineIngest.FrameInRange | core/src/flv.rs:58-96 | inside the format's ranges such a frame has exactly the times its connection's timeline gives it |
| EngineIngest.EngineToIngest | core/src/rtmp/mod.rs:852-888 | the bytes of the attached connection, fed in any pieces, framed with any chunk size and read back, decode to the frames of its packets, times included |
| EngineConfigs.ConfigsSurvive | core/src/engine.rs:272-309 | a successful tick, and a detach in any state, leave with the engine the configurations that the connection's peer was shown |
| EngineConfigs.RunKept | core/src/engine.rs:249-634 | the invariant behind it, over every run |
| EngineConfigs.KnowsLatest | core/src/engine.rs:419-432 | over any run the engine knows the last configuration it was given, whatever its muxers were told before |
| EngineConfigs.ConnectionOpens | core/src/engine.rs:455-473 | with room for the preamble the first tick of a connection shows its peer the configurations the engine knows |
| EngineMetadata.TickAnnounces | core/src/engine.rs:455-537 | a tick shows the metadata once more if and only if none of this connection succeeded before it and the tag finds room, and it is the last to do so if and only if it succeeds |
| EngineMetadata.RunAnnounces | core/src/engine.rs:455-537 | over any run of one connection the metadata tags shown are as many as those ticks |
| EngineMetadata.MetadataAgain | core/src/engine.rs:455-537 | two ticks on a fresh connection show the metadata twice if and only if the first fails and leaves room for the tag |
| EngineMetadata.MetadataTwice | core/src/engine.rs:455-537 | from a new engine: an audio packet without a known configuration makes the metadata come twice |
| EngineTimeline.TimestampsNeverGoBack | core/src/engine.rs:249-634 | over every run, the tags of all connections of a stream concatenated never go back on a track, and header tags lie at or above all media before them; a successful finish ends one stream and the next starts anew |
| EngineTimeline.ReattachForgets | core/src/engine.rs:249-265 | after an attach over an attached transport and a tick, the stream's tags are still in order if and only if no frame seen before, of either track, is above time 0, or the new transport fails before it has taken the metadata |
| Counterexamples.ReattachedBehind | core/src/engine.rs:249-265 | from a new engine: two audio packets go out, a second transport is attached, and the tags go back |
| Resume.SortFirst | core/src/engine.rs:402-411 | the stable sort keeps an ordered track's order and its first frame (that it sorts is `Engines.SortSorts`) |
| Resume.ResumesOnKeyframe | core/src/engine.rs:272-309 | from the loss of a connection to the finish of the stream, as long as no keyframe is evicted or lost to a failed finish while the next video frame is the first of its connection and none is awaited, every connection shows a video configuration and then a keyframe before any other video frame; so it does with the drain of a finish, failed or not, on top |
| Resume.FailedFinishReady | core/src/engine.rs:604-634 | after a failed finish the next drain begins on a keyframe if and only if, before it, one was awaited and none was in the buffer |
| Evictions.StartDecided | core/src/engine.rs:390-537 | an engine without a transport that awaits no keyframe: once the next connection has shown video, it started on a keyframe if and only if the first video packet in the buffer, or else of those pushed since, is one |
| Evictions.EvictionOrphans | core/src/backpressure.rs:35-42 | the same of what any pushes, evicting or cutting, leave of the buffer |
| Evictions.FailedFinishDecides | core/src/engine.rs:604-634 | otherwise, on a connection without video, the start is good if and only if the first video packet pushed afterwards is a keyframe |
| Counterexamples.EvictedKeyframe | core/src/backpressure.rs:35-42 | from a new engine, on every profile: a keyframe is kept over a lost connection, a full buffer of inter-frames evicts it, and the next connection starts on an inter-frame |
| Counterexamples.KeyframeLostByFinish | core/src/engine.rs:604-634 | from a new engine: a keyframe kept over a lost connection is lost to a finish that fails on the next one, and that connection starts on an inter-frame, with no eviction and video in order |
| EngineRoom.PreambleRoom | core/src/engine.rs:455-473 | metadata and sequence headers of a tick go out if and only if the bytes of those that are missing find room |
| EngineRoom.SendReaches | core/src/engine.rs:470-495 | a tick sends at least k packets of its batch if and only if, said before it, the first k are known and their bytes find room |
| Recording.RecordingInOrder | core/src/sink.rs:87-143 | over any calls the recorded file is one metadata tag and then an ordered timeline |
| RecordingFile.FileHoldsRecorded | core/src/sink.rs:87-143 | over any calls to a new recorder, with clock jumps and failing writes: the file decodes to exactly the configurations given and the frames of the packets recorded before the first finish, in order, each behind its sequence header |
| RecordingFile.RecordingReports | core/src/sink.rs:115-134 | a call reports success if and only if, said before it, a finish came before, or the metadata is out or finds room, the configuration is known and the bytes find room |
| Recording.RecordingOutput.PutMetadataOnce | core/src/sink.rs:87-95 | metadata once, before everything else |
| Recording.RecordingOutput.Configure | core/src/sink.rs:99-113 | configurations behind the metadata, ignored after the finish |
| Recording.RecordingOutput.RecordPacket | core/src/sink.rs:115-134 | records or rebases and records, ignored after the finish; what that leaves in the file and when it reports success is `RecordingFile`'s |
| Backoff.BaseDelay | core/src/session.rs:136-147 | the loop with early exit computes min(cap, initial * growth^(n-1)) |
| Backoff.BaseMonotone | core/src/session.rs:136-147 | delays are never negative, never shrink with the attempt number and never exceed the cap |
| Backoff.JitterBand | core/src/session.rs:150-154 | the jittered delay is at least half the base and below the base if and only if the base is positive |
| Backoff.JitterSpreads | core/src/session.rs:150-154 | every delay of the band comes of exactly one draw |
| Sessions.StreamSession.PumpOnce | core/src/session.rs:330-357 | one pump of the session: drain, or disconnect and attempt |
| Sessions.StreamSession.Reconnect | core/src/session.rs:430-490 | one attempt if the schedule allows it; success attaches, resets and resumes, refusal reschedules or gives up |
| Sessions.StreamSession.StartWith | core/src/session.rs:309-325 | the first connection, without retry |
| Sessions.StreamSession.RetryNow | core/src/session.rs:373-379 | re-arms an exhausted session and nothing else |
| Sessions.StreamSession.End | core/src/session.rs:361-369 | drains a connected session; a failure leaves it as it is |
| SessionRuns.SessionInvariant | core/src/session.rs:309-490 | in every reachable state: reconnecting or exhausted means detached, and reconnecting means attempts below max(1, max_attempts) |
| SessionRuns.DialsAreSpaced | core/src/session.rs:430-490 | in any run without start or retry, a dial after a refusal comes no sooner than half the base delay after it was scheduled |
| SessionRuns.DialsInTime | core/src/session.rs:430-488 | in any such run, while attempts go on, a pump that comes once the base delay after the last refusal has passed dials again |
| SessionRuns.NextDialWaits | core/src/session.rs:430-435 | no dial before the scheduled time |
| SessionRuns.RefusalsBounded | core/src/session.rs:454-488 | in any run without start or retry, no more than max(1, max_attempts) dials fail in a row |
| SessionRuns.RearmStartsOver | core/src/session.rs:373-379 | after a re-arm of an exhausted session the next pump dials whatever the time, and as many refusals as the policy allows fit again before it gives up anew |
| SessionRuns.RefusalsFit | core/src/session.rs:454-488 | a reconnecting session takes refusals up to its limit and gives up exactly with the last |
| SessionRuns.ReconnectsCounted | core/src/session.rs:430-490 | over any run the reconnect counter is the number of dials of pumps that were answered |
| SessionRuns.PumpAnswers | core/src/session.rs:330-357 | what a pump answers in each state, and that the count it sends is that of the packets muxed, on the old connection or on a new one |
| SessionRuns.FinishedUntilStarted | core/src/session.rs:309-369 | a finished session is left exactly by a start that connects |
| SessionRuns.FinishStrands | core/src/session.rs:361-369 | a finish leaves a connected session with nothing attached if and only if, said before the call, the flush succeeds, the shutdown fails, and each packet that waits is acceptable in its turn and finds room |
| SessionRuns.StrandedForGood | core/src/session.rs:330-357 | without a start or a finish such a session stays as it is over any calls: no dial, nothing attached, nothing muxed |
| SessionRuns.StrandedReached | core/src/session.rs:309-369 | from a new session: a start and one finish lead there |
| SessionRuns.CallTracks | core/src/session.rs:291-490 | every session call, finishing included, is a run of engine calls |
| SessionRuns.SessionNeverGoesBack | core/src/session.rs:291-490 | so over any session, through stalls, refusals, reconnects, finishes and new starts, timestamps of a stream never go back |
| SessionRuns.SessionConserves | core/src/session.rs:291-490 | pushed = muxed + dropped + buffered if and only if each finish of a connected session met the engine's condition, and pushed is larger otherwise; the buffer stays within the budget |
| SessionResumes.SessionResumesOnKeyframe | core/src/session.rs:330-490 | any session, from the pump in which it loses its connection to the finish of the stream: every connection it dials starts on a keyframe behind its configuration, under the same conditions on pushes and finishes |
| Watchdog.TripsOnlyWhenSilent | core/src/rtmp/mod.rs:949-972 | the watchdog trips only after a full silent budget and three probes since the last inbound message, each at least a quarter of the budget after the one before |
| Watchdog.SilenceIsNoticed | core/src/rtmp/mod.rs:923-972 | a silent peer checked every gap or sooner trips it within max(budget, 3/4 budget + 3 gap) + gap |
| Transports.RtmpTransport.WriteBytes | core/src/rtmp/mod.rs:882-888 | every tag completed is framed and sent, up to the first failure; what a reader makes of them is `Relays.TagsAreRelayed` |
| Transports.RtmpTransport.MaintainOnce | core/src/rtmp/mod.rs:923-972 | drains inbound messages up to the end of the bytes, wherever that falls, then checks the peer |
| Transports.RtmpTransport.ReactTo | core/src/rtmp/mod.rs:774-811 | the reaction to each control message, pings answered with their own stamp |
| Transports.RtmpTransport.MaybeSendAck | core/src/rtmp/mod.rs:822-831 | the acknowledgement step of the object |
| Transports.RtmpTransport.SendMessage | core/src/rtmp/mod.rs:841-849 | frames one message onto the socket and counts its bytes |
| Acknowledgements.WindowKept | core/src/rtmp/mod.rs:822-831 | over every successful run the acknowledgements sent carry strictly increasing counters modulo 2^32, and at each message that arrived less than the window then in force had come in since the highest counter the peer was told |
| Acknowledgements.WindowIsAnnounced | core/src/rtmp/mod.rs:774-811 | over every successful run the window in force at each message is the last one the peer announced before it, and so in the end; the peer's own count is the last it acknowledged |
| TransportRuns.PingEchoed | core/src/rtmp/mod.rs:796-839 | a ping request is answered at once with the stamp it carried |
| TransportRuns.MaintainWatches | core/src/rtmp/mod.rs:923-972 | a health check of a connection is one call of the watchdog: it fails when the watchdog trips and otherwise leaves the watch that the watchdog's step says |
| TransportRuns.MediaSurvivesControlTraffic | core/src/rtmp/mod.rs:882-972 | over any successful run of writes and health checks, a reader of the wire decodes exactly the tags written, whatever was acknowledged, answered and probed in between |
| Servers.PublishSession.PumpSocket | core/src/rtmp/server.rs:327-353 | the serving loop until an ending command, a failure or the end of the connection: what the handler was told and what was written back |
| Servers.PublishSession.DispatchMedia | core/src/rtmp/server.rs:517-533 | decoded media to the handler, configurations merged |
| Servers.PublishSession.HandleMessage | core/src/rtmp/server.rs:536-568 | the reaction to each control message of the publisher |
| Servers.PublishSession.HandleCommand | core/src/rtmp/server.rs:489-502 | exactly the three unpublishing commands end the stream |
| Servers.PublishSession.AnnounceLimits | core/src/rtmp/server.rs:397-412 | the three limit messages, the first under the old chunk size and the others under the new; the size changes when the first is out, even if a later one fails |
| Servers.AnnouncedInSync | core/src/rtmp/server.rs:397-412 | a peer at the default chunk size reads the limits and everything sent after them |
| Servers.LimitsSay | core/src/rtmp/server.rs:397-412 | in bytes: a chunk size of 4096, and a window of 2,500,000 bytes by both window messages, the second of the dynamic kind |
| Servers.HandlerHearsMedia | core/src/rtmp/server.rs:327-353 | the handler is told exactly the decoded media of the messages on the wire, in order, and then that it is over |
| Servers.PublisherToHandler | core/src/rtmp/server.rs:327-353 | from a publishing connection to the ingest handler: exactly the tags of the FLV stream, as configurations and packets |
| Servers.PacketsReachHandler | core/src/rtmp/server.rs:327-353 | from the muxer to the ingest handler: the accepted packets' frames, in order, each behind the sequence header it brought |
| ServerReplies.ServerReplies | core/src/rtmp/server.rs:327-353 | over every byte string a publisher sends, the server writes back exactly an acknowledgement at each message by which the window in force, the last announced, has filled, and each ping's own stamp, up to an ending command, a refused chunk size or a failing write |
| Mp4.PatchTraf | core/src/hls/mp4.rs:441-456 | the inner walk skips tfhd and tfdt, finds the trun and overwrites its four offset bytes and nothing else |
| Mp4.PatchOffsets | core/src/hls/mp4.rs:432-458 | the walk over the serialized moof patches every fragment's trun with the moof size + 8 + earlier payloads |
| Mp4.BuildTraf | core/src/hls/mp4.rs:404-428 | one traf with a blank offset, sample by sample |
| Mp4.MediaSegment | core/src/hls/mp4.rs:392-473 | the whole writer: build, patch in place, append the media |
| Mp4Player.SegmentTiles | core/src/hls/mp4.rs:392-473 | styp, moof and mdat tile the segment with no byte left over, and mfhd and the trafs tile the moof |
| Mp4Player.MediaPlace | core/src/hls/mp4.rs:432-473 | at moof start plus the first offset lie all payloads, to the last byte |
| Mp4Player.SegmentRoundTrip | core/src/hls/mp4.rs:392-473 | a player that trusts only box sizes and data offsets recovers every fragment, below 2^32 bytes |
| Mp4Player.WriteAndRead | core/src/hls/mod.rs:556-558 | the bytes the writer returns read back to its fragments |
| HlsOutputs.HlsOutput.CloseOpenSegment | core/src/hls/mod.rs:492-579 | the object seals a segment: file, entry, number, window and playlist |
| HlsOutputs.HlsOutput.PutVideo | core/src/hls/mod.rs:352-400 | gates, normalization, cut and append of a video packet |
| HlsOutputs.HlsOutput.PutAudio | core/src/hls/mod.rs:402-449 | the same of an audio packet |
| HlsOutputs.HlsOutput.PutOne | core/src/hls/mod.rs:623-631 | a packet by its kind, ignored after the finish |
| HlsOutputs.HlsOutput.Configure | core/src/hls/mod.rs:603-621 | the first configuration of each track |
| HlsOutputs.HlsOutput.RollWindow | core/src/hls/mod.rs:565-577 | the loop that retires the oldest segments and their files |
| HlsOutputs.HlsOutput.WriteList | core/src/hls/mod.rs:582-599 | the playlist over the current window |
| HlsOutputs.HlsOutput.EnsureInitFile | core/src/hls/mod.rs:459-489 | the init segment once, with the tracks known by then |
| HlsRuns.InitHasTrack | core/src/hls/mod.rs:459-489 | over no run is the init segment refused for having no configuration, and none is written without a track |
| HlsOutputs.HlsOutput.FinishStream | core/src/hls/mod.rs:633-640 | the last segment and the ended playlist, once |
| HlsOutputs.Timebase.NormalizeTime | core/src/hls/mod.rs:214-231 | one step of the clock |
| HlsOutputs.BuildVideo | core/src/hls/mod.rs:504-516 | the sample loop: durations from successors, clamped to 32 bits, and where the samples end |
| HlsRuns.OutputRefinesInput | core/src/hls/mod.rs:352-579 | per track, the samples of all written segments and then the waiting ones are exactly the accepted packets in order: length-prefixed units, sync bit, dependence and composition offset as a player reads them |
| HlsRuns.OffsetExact | core/src/hls/mod.rs:504-516 | the offset that a written sample has is 90 (pts - dts) if and only if that fits signed 32 bits |
| HlsRuns.FinishReleases | core/src/hls/mod.rs:633-640 | after a finish the written segments hold everything that was accepted |
| HlsGates.FromKeyframeOn | core/src/hls/mod.rs:352-449 | from a new output: once a keyframe with a configuration came, every video packet, and with an audio configuration every audio packet, comes out |
| HlsGates.AudioBringsTrack | core/src/hls/mod.rs:402-425 | before the init segment is out an audio packet may bring its track's configuration itself |
| HlsGates.WrappedParams | core/src/hls/mod.rs:178-192 | the parameters of wrapped audio: the rate its frequency index names and its channels, at least one |
| HlsRuns.CallOutput | core/src/hls/mod.rs:603-640 | one call adds its packet if it is accepted, and closing a segment neither loses nor repeats a sample |
| HlsCuts.TimesOrdered | core/src/hls/mod.rs:214-231 | normalized times start at 0 and never go back, for every input |
| HlsTimes.ClockMoves | core/src/hls/mod.rs:214-231 | the clock moves by the distance from the newest decode time; up to 100 ms back it waits, and after a longer jump it goes on from where it was |
| HlsTimes.InOrderTimes | core/src/hls/mod.rs:214-231 | input in order keeps its distances exactly |
| HlsTimes.TimesRefineInput | core/src/hls/mod.rs:352-449 | over any run the samples of a track, those written and then those that wait, have the times that the decode times of the accepted packets of both tracks prescribe |
| HlsTimes.SpanIs | core/src/hls/mod.rs:322-333 | a segment is due if and only if some sample of either track lies the target behind its earliest |
| HlsCuts.SegmentsSpanTarget | core/src/hls/mod.rs:322-333 | every segment but the one that finishing closed spans the target duration |
| HlsCuts.CutsOpenOnKeyframes | core/src/hls/mod.rs:380-398 | after video was seen, every segment opened by a cut begins with a sync video sample |
| HlsStray.KeyframesCut | core/src/hls/mod.rs:380-398 | a video packet that is taken closes the open segment if and only if it is a keyframe and the segment spans the target |
| HlsStray.AudioCutsWithoutVideo | core/src/hls/mod.rs:402-449 | an accepted audio packet that comes when the open segment spans the target closes it if and only if no video packet was ever seen |
| HlsStray.UnkeyedWrites | core/src/hls/mod.rs:352-449 | over any run without a finish and without an accepted video keyframe nothing more is written if and only if video was seen before any audio was due, whatever the init segment holds |
| HlsStray.SeenVideoEndsCuts | core/src/hls/mod.rs:352-449 | so once video was seen nothing is written in such a run |
| HlsStray.StrayVideoEndsCuts | core/src/hls/mod.rs:352-449 | behind an init segment without video every run up to the finish is such a run |
| HlsStray.StrayBeforeInit | core/src/hls/mod.rs:352-449 | from a new output: the audio packet that closes the first segment does not close it with one dropped video packet before it |
| HlsStray.StrayAfterInit | core/src/hls/mod.rs:352-449 | from a new output: with one video packet behind the first audio segment no calls before the finish ever write a second one |
| HlsGrid.VideoOnGrid | core/src/hls/mod.rs:501-527 | every written video sample decodes at 90 dts + e, with e' = max(0, e + 2970 - 90 gap) from segment to segment |
| HlsGrid.NoLead | core/src/hls/mod.rs:517-521 | e stays 0 when every boundary gap is at least 33 ms |
| HlsGrid.TicksUpTo | core/src/hls/mod.rs:506-516 | the durations before a sample add up to 90 times its offset if and only if none was clamped to 32 bits |
| HlsGrid.FragmentsNeverOverlap | core/src/hls/mod.rs:517-554 | in every run a later fragment of a track starts at or after an earlier one's end |
| HlsAudio.AudioOnGrid | core/src/hls/mod.rs:528-554 | in every reachable state each segment's audio starts at its first packet's time at the track's rate, or where the audio before it ends if later, and goes on in frames of 1024 |
| HlsWindow.PlaylistMirrorsStorage | core/src/hls/mod.rs:556-599 | the playlist lists the last min(sequence, max(window size, 1)) segments, numbered consecutively; the stored files are exactly those; the target is no shorter than any of them |
| HlsWindow.ClosedDuration | core/src/hls/mod.rs:499-565 | a closed segment is listed last, with the time from its earliest sample to the end of its latest, a last video sample lasting 33 ms and a last audio sample one AAC frame of 1024 samples in whole milliseconds; the longest duration follows |
| HlsWindow.TargetIsLeast | core/src/hls/mod.rs:582-587 | the listed target is the least whole number of seconds that is at least 1, at least the configured one and no shorter than any segment |
| HlsWindow.StoredFilesPlay | core/src/hls/mod.rs:556-558 | every stored file gives a player the fragments written under its number |
| HlsWindow.NamesDiffer | core/src/hls/mod.rs:557-557 | two segment numbers never share a file name |

## Left out

- Sockets, timeouts, threads, the directory storage and the accept loop: input and output plumbing; byte logs and a map from segment numbers to bytes stand in.
- 64-bit overflow of times and counters: integers are unbounded, `None` stands for the lowest watermark, and ticks do not saturate.
- Transports.RtmpTransport.MaintainOnce: after a read that ended inside a message the reader's state is whatever that read left, as the source's read is not resumable; one call reads the clock once.
- Transports.RtmpTransport.WriteBytes: the last-activity time read by the stall detector is not kept; a stall is a parameter of the session's pump.
- Transports.RtmpTransport.SendMessage: a flush is not told apart from its write, and the time of the last progress is not kept.
- RecordingFile.FileHoldsRecorded: needs packets, metadata and configurations that fit the FLV format.
- EngineConfigs.ConfigsSurvive: needs packets and configurations that fit the FLV format; after a failed tick the engine learns at the detach.
- Relays.TagsAreRelayed: of successful runs, and of script tags whose text begins with a string, as the code sends no others.
- ChunkReading.ChunkReader.ReadMsg: says nothing about the slots after a read that ran out of bytes.
- Servers.PublishSession.PumpSocket: says what the handler was told and what was written back, not the reader's slots after the connection ended; a read timeout is not told apart from the end.
- Mp4.MediaSegment: the moof must be smaller than 2^32 bytes, as its size field is; beyond that the walk would read a truncated size.
- HlsOutputs.HlsOutput.CloseOpenSegment: storage never fails, at most 200 million samples wait, and durations are whole milliseconds where the source keeps seconds in floating point; the init file is the pair of configurations it was made from.
- HlsOutputs.HlsOutput.EnsureInitFile: the refusal for having no configuration is not an outcome of the method, as no run meets it (`HlsRuns.InitHasTrack`).
- HlsGrid.VideoOnGrid: assumes that no sample duration was clamped to 32 bits (`HlsGrid.TicksUpTo` says exactly what a clamp does).
- HlsWindow.PlaylistMirrorsStorage: files are keyed by segment number (`HlsWindow.NamesDiffer`); the init and playlist names must not look like segment names, removals succeed, and the constant playlist lines are not modelled.
- Resume.ResumesOnKeyframe: needs video decode times that do not decrease in arrival order and no second transport over an attached one. While the next video frame is the first of its connection and no keyframe is awaited, no push may evict a keyframe (what happens then is `Evictions.EvictionOrphans`) and no finish may fail and lose what waits (`Evictions.FailedFinishDecides`). A finish that succeeds ends the stream, and with it the promise, until a connection is lost again.
- Evictions.FailedFinishDecides: as `EvictionOrphans`, of one connection whose pushes drop nothing.
- EngineMetadata.RunAnnounces: finishes, which write no metadata, and changes of the connection are outside its runs.
- Evictions.EvictionOrphans: speaks of one connection whose pushes drop nothing once it is attached.
- EngineTimeline.TimestampsNeverGoBack: needs packets that fit the FLV format and no attach over an attached transport; `EngineTimeline.ReattachForgets` says when such an attach breaks the order.
- EngineWire.WireTellsMuxed: needs packets, metadata and configurations that fit the FLV format.
- Amf0.RoundTrip: strings are byte strings, so the replacement of invalid UTF-8 is not modelled; a number is its eight bytes.
- Media.ExtractSets: reads the record's bytes; SPS dimension parsing beyond the bit reader is not modelled.
- The RTMP handshake, the connect, createStream and publish exchange, and their command texts: constant strings around `Amf0`.
- The jitter generator's bits, the round-trip measurement and wall-clock stamps: parameters.
- Fan-out of packets and configurations to outputs, multi-sink handlers, the foreign-function bindings, logging and telemetry: forwarding without a deep property.
- Engine reset and the read-only counters: easy members.
- The digest handshake and SHA-256: a specification would only restate the code.
