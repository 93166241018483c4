# Verified model of Voxray's streaming core

Voxray is a real-time voice server. This project models the streaming state machines and codecs underneath it
and proves what they promise over unbounded inputs.

* `VadAnalyzer`: windowed voice activity detection with hysteresis. The result does not depend on how the byte
  stream is cut into calls, and the state is a closed form of the history of speech windows.
* `SilenceTurn`, `TurnProcessor`, `TurnAsync`, `TurnOrder`: end-of-turn segmentation. The synchronous processor's
  segments are the one minimal cut of the audio; the asynchronous processor with its snapshot goroutines pushes the
  same segments under every interleaving; each segment follows the end of its user turn.
* `PatternAggregator`: the streaming delimiter parser computes the leftmost parse of its input, and its output is
  independent of chunking exactly for opening delimiters none of whose proper prefixes has a border.
* `SyncParallel`, `Parallel`: the two barriers over parallel branches, the first over sinks that send every frame
  from a goroutine of its own, with cancelled calls and failing pushes.
* `FrameQueue`: two priority classes, a one-slot wakeup token, one consumer, any number of producers and closers.
* `Varint`, `Wire`, `WireFrames`, `Envelope`: the hand-written protobuf codecs (Protocol Buffers Encoding, "Base 128
  Varints", "Length-Delimited Records", "Last One Wins"): round trips, last one wins, and what is lost.
* `Pcm`, `AudioBuffer`, `Wav`: mixing, interleaving, resampling, the alignment of two drifting tracks, and WAV
  files written in a stream with a patched header (Multimedia Programming Interface and Data Specifications 1.0,
  chapter 3, "Waveform Audio File Format (WAVE)").
* `TurnTracking`, `UserTurn`, `BargeIn`: de-duplication over a bounded index, bracketed and alternating turns, and
  the barge-in threshold.

Objects that the source updates in place are classes; each method is proved against a function of the old state,
and the lemmas are about these functions. Code in which goroutines meet is a machine whose moves are the stretches
that run under a mutex or touch a channel; lemmas quantify over all executions. Bytes are integers below 256;
64-bit and 32-bit truncation is written out. Real numbers stand for floating-point ones, the clock and the VAD
backend are parameters.

Where code and comments differ the model follows the code. `Sink` says that order is preserved by the channel, but
each send runs in its own goroutine, so order is not assumed (`BarrierHolds`) and what it would add is proved
separately (`InOrderLeavesNothing`). A cancelled call of `SyncParallelPipeline` leaves SyncFrames behind that the next
call takes for its own (`StaleSyncEndsTheNextCall`). The user turn controller starts no idle timer during a turn, but
one that has already fired pushes its frame there (`IdleInTurnExactly`). `parseEnvelope` has an error result it never
uses, and its bound check can wrap (`PanicsExactly`). The aggregator holds back the shortest suffix that could begin a
delimiter, so splitting can change its output (`ChunkingIrrelevantIff`).

## Model

| member | source | states |
|---|---|---|
| VadAnalyzer.HistoryForm | pkg/audio/vad/analyzer.go:207-242 | from Quiet, for all thresholds, state and both counters are a function of the history: active iff some run of startFrames speech windows ended with no run of stopFrames silent windows since; counters are trailing run lengths; a threshold of 0 never fires |
| VadAnalyzer.ActiveStep | pkg/audio/vad/analyzer.go:234-242 | how one more window changes whether the history is active |
| VadAnalyzer.TrailingIsLongestRun | pkg/audio/vad/analyzer.go:209-232 | the trailing run length decides exactly which runs the history ends in |
| VadAnalyzer.ChunkingIrrelevant | pkg/audio/vad/analyzer.go:177-246 | any split of a byte stream into calls leaves the same state, counters, volume, confidence and leftover bytes as one call |
| VadAnalyzer.StateOfStream | pkg/audio/vad/analyzer.go:191-243 | fed in any chunks, a fresh analyzer's state is the closed form of the verdicts on the stream's fixed windows |
| VadAnalyzer.WindowsConserve | pkg/audio/vad/analyzer.go:185-193 | windows and leftover, in order, are the stream |
| VadAnalyzer.VerdictExactly | pkg/audio/vad/analyzer.go:191-207 | a window is speech exactly if the confidence in it, 0 on an error, and the smoothed volume, as an explicit weighted sum of the windows' loudness, reach their minimum |
| VadAnalyzer.VolumeOfStream | pkg/audio/vad/analyzer.go:191-205 | windows have the fixed size; volume and confidence after a stream are the smoothed volume of its windows and the confidence in the last |
| VadAnalyzer.BaseAnalyzer.Analyze | pkg/audio/vad/analyzer.go:177-246 | consumes exactly the complete windows of buffer and input; does nothing without rate or window size |
| VadAnalyzer.BaseAnalyzer.UpdateState | pkg/audio/vad/analyzer.go:209-242 | the switch and threshold checks do one step of the four-state machine |
| VadAnalyzer.BaseAnalyzer.Recompute | pkg/audio/vad/analyzer.go:153-174 | window size and thresholds follow rate and parameters; counters restart, the state is kept |
| VadAnalyzer.BaseAnalyzer.SetSampleRate | pkg/audio/vad/analyzer.go:129-138 | a rate of 0 or less only disables the analyzer, another recomputes window size and thresholds and restarts the counters |
| VadAnalyzer.BaseAnalyzer.SetParams | pkg/audio/vad/analyzer.go:140-145 | parameters are normalized; with a rate, window size and thresholds follow them and the counters restart while state, volume, confidence and leftover bytes stay; without one nothing else changes |
| VadAnalyzer.ThresholdFires | pkg/audio/vad/analyzer.go:163-168 | a threshold is at least 1, that is, can fire, exactly if its time is at least half a window |
| VadAnalyzer.ThresholdIsNearest | pkg/audio/vad/analyzer.go:159-168 | a time is taken as the nearest whole number of windows; without a window size one counts as 10 ms |
| VadAnalyzer.DefaultWindow | pkg/audio/vad/analyzer.go:153-158 | without a size from the backend a window is 10 ms of whole samples |
| VadAnalyzer.Defaults | pkg/audio/vad/analyzer.go:39-66 | settings that are not positive get 0.7, 0.2, 0.2, 0.2 and 0.02, positive ones are kept |
| SilenceTurn.SilenceTurnAnalyzer.AppendAudio | pkg/audio/turn/silence.go:106-147 | an empty chunk changes nothing; speech resets and triggers, silence after speech accumulates and completes at stopMs, the chunk buffer is trimmed to the cutoff, the start of speech is kept until then |
| SilenceTurn.SilenceTurnAnalyzer.Clear | pkg/audio/turn/silence.go:183-195 | clears trigger, silence, buffer, start of speech and last state, and touches nothing else |
| SilenceTurn.SilenceTurnAnalyzer.UpdateParams | pkg/audio/turn/silence.go:86-98 | of the three parameters only positive values are taken over |
| SilenceTurn.SilenceTurnAnalyzer.SetSampleRate | pkg/audio/turn/silence.go:67-77 | a positive rate wins, else the initial one once |
| SilenceTurn.ClosesTurnInSamples | pkg/audio/turn/silence.go:125-131 | chunks are a whole turn exactly if they contain speech and at least stopSecs times the rate 16-bit samples follow the last of it |
| SilenceTurn.OneSecond | pkg/audio/turn/silence.go:128-129 | two bytes a sample: a second of audio counts 1000 ms |
| SilenceTurn.TrimKeepsRecent | pkg/audio/turn/silence.go:138-143 | of chunks in order of arrival exactly those not older than the cutoff stay |
| TurnProcessor.TurnProcessor.ProcessFrame | pkg/processors/voice/turn.go:112-206 | every frame in either direction: cancel and parameter updates, the controller told the verdict and its frames pushed first, then one segment exactly when the turn completes, everything else passed on |
| TurnProcessor.CompleteIffTurnCloses | pkg/audio/turn/silence.go:120-136 | for any stop time in force, the analyzer answers Complete exactly when the chunks since the last clear contain speech and end in that much silence |
| TurnProcessor.SegmentsAreTheCut | pkg/processors/voice/turn.go:187-206 | without a cancel, pushed segments and live buffer conserve the non-empty chunks of any stream, each segment is a turn no shorter beginning of which is one, the live buffer holds none; and no other cut has these properties |
| TurnProcessor.CutIsUnique | pkg/processors/voice/turn.go:187-206 | there is only one such cut of a stream |
| TurnProcessor.CancelForgets | pkg/processors/voice/turn.go:144-150 | after a cancel, whatever came before, the audio is cut as by a fresh processor with the stop time in force; earlier segments stay and nothing of the buffer reaches a later one |
| TurnProcessor.SegmentClosesExactly | pkg/processors/voice/turn.go:187-206 | after any events, cancels and new stop times included, a chunk joins the live ones and they are pushed exactly if they close a turn for the stop time in force |
| TurnProcessor.AudioConserved | pkg/processors/voice/turn.go:187-206 | pushed audio and buffer are byte for byte the audio that arrived |
| TurnProcessor.StopSecsInSamples | pkg/processors/voice/turn.go:114-139 | a parameter update's stop time is that many seconds of samples |
| TurnProcessor.WhatFramesMean | pkg/processors/voice/turn.go:112-176 | a detector error counts as silence; audio and cancels count downstream only, stop times in both directions if positive |
| TurnOrder.SegmentsFollowStopped | pkg/processors/voice/turn.go:179-206 | over all frames and timer firings, the controller has pushed Stopped before every segment and since the one before it |
| TurnAsync.AsyncRefinesSync | pkg/processors/voice/turn.go:208-247 | under every interleaving with the goroutines, cancels, parameter updates and ends of their contexts, the asynchronous processor has pushed the synchronous segments and between frames holds the same buffer and analyzer state |
| TurnAsync.ChannelNeverCompletes | pkg/processors/voice/turn.go:221-240 | a result the processor receives is never Complete; it is dropped and the next analysis can be asked for |
| TurnAsync.AnalysisIsPending | pkg/processors/voice/turn.go:241-245 | after every audio frame, while the end of a turn is awaited, an analysis is under way or its result waits |
| TurnAsync.NothingPendingWithoutAudio | pkg/processors/voice/turn.go:144-150 | a result is pending only for buffered audio: segments and cancels drop it |
| TurnAsync.ReportsWhatItRead | pkg/audio/turn/silence.go:159-181 | a goroutine reports the state it read, or failure if its context had ended |
| TurnAsync.AsyncSegmentsAreTheCut | pkg/processors/voice/turn.go:208-247 | so the asynchronous segments are the minimal cut too |
| TurnAsync.AsyncCancelForgets | pkg/processors/voice/turn.go:144-150 | the same holds of the asynchronous processor under every interleaving |
| TurnAsync.ProcessorNeverBlocks | pkg/processors/voice/turn.go:222-245 | the processor's next move is always enabled and brings it closer to the end of the frame |
| PatternAggregator.Aggregator.Feed | pkg/utils/patternaggregator/patternaggregator.go:24-64 | segments, matches and buffer are those of one pass over buffer plus text; terminates unless both delimiters are empty |
| PatternAggregator.Aggregator.Flush | pkg/utils/patternaggregator/patternaggregator.go:67-71 | hands out the buffer and clears it |
| PatternAggregator.FindSubstring | pkg/utils/patternaggregator/patternaggregator.go:73-83 | finds what the specification finds |
| PatternAggregator.FindIsLeftmost | pkg/utils/patternaggregator/patternaggregator.go:73-83 | that is the first occurrence, or there is none |
| PatternAggregator.HeldIsShortest | pkg/utils/patternaggregator/patternaggregator.go:30-36 | the suffix held back is the shortest that begins the opening delimiter |
| PatternAggregator.EmptyDelimitersStall | pkg/utils/patternaggregator/patternaggregator.go:26-63 | with both delimiters empty the loop makes no progress; otherwise every match consumes input |
| PatternAggregator.DrainIsTheLeftmostParse | pkg/utils/patternaggregator/patternaggregator.go:24-64 | a pass computes the offline leftmost non-overlapping parse, and only that |
| PatternAggregator.ChunkingIrrelevantIff | pkg/utils/patternaggregator/patternaggregator.go:24-64 | text, matches and buffer are independent of chunking for all texts exactly if no proper prefix of the opening delimiter has a border |
| PatternAggregator.FeedInTwo | pkg/utils/patternaggregator/patternaggregator.go:24-64 | for such delimiters feeding two pieces finds, in order, what feeding them joined finds |
| PatternAggregator.BorderedPieceLeaks | pkg/utils/patternaggregator/patternaggregator.go:29-41 | a first piece of the delimiter that has a border is partly released as text |
| PatternAggregator.BorderedDelimiterIsUnsafe | pkg/utils/patternaggregator/patternaggregator.go:29-41 | "aab" is a delimiter for which chunking changes the output |
| PatternAggregator.FeedAllConserves | pkg/utils/patternaggregator/patternaggregator.go:24-64 | for any delimiters and chunking: text, delimited matches and buffer, in order, are what was fed |
| PatternAggregator.SegmentsAreTheText | pkg/utils/patternaggregator/patternaggregator.go:37-40 | the segments returned, joined, are all of the text |
| PatternAggregator.IvrDelimiterIsSafe | pkg/extensions/ivr/ivr.go:26-28 | the IVR delimiter is one for which chunking does not matter |
| SyncParallel.SyncParallelPipeline.Forward | pkg/pipeline/sync_parallel.go:116-130 | forwards the collected frames with new IDs in order; forgets the IDs after a StartFrame |
| SyncParallel.FreshIsNew | pkg/pipeline/sync_parallel.go:118-125 | what is forwarded was collected, carries every new ID once and no seen one |
| SyncParallel.BarrierHolds | pkg/pipeline/sync_parallel.go:73-132 | whatever the order of sends, cancelled calls and failed pushes included: between calls the SyncFrames pending in a branch are exactly those of calls that ended without its answer and whose send has not given up; every other call consumed one per branch; every emitted data frame is collected, pending or given up |
| SyncParallel.UndisturbedBarrier | pkg/pipeline/sync_parallel.go:73-132 | so if nothing goes wrong, no SyncFrame is pending between calls and each call consumed one per branch |
| SyncParallel.StaleSyncEndsTheNextCall | pkg/pipeline/sync_parallel.go:98-114 | after a cancelled call it does: the next call takes the SyncFrame left behind, ends with nothing collected and leaves its own frames behind |
| SyncParallel.CallsCollectAll | pkg/pipeline/sync_parallel.go:96-114 | what finished, cancelled and current calls collected is, as a multiset, exactly what was taken from the channels |
| SyncParallel.CollectsInChannelOrder | pkg/pipeline/sync_parallel.go:96-114 | for any order of sends, channels are first in, first out, and a call collects and hands on, branch after branch, what left the channel since it began, in that order |
| SyncParallel.ChannelsBounded | pkg/pipeline/sync_parallel.go:55-61 | no channel holds more than 64 frames |
| SyncParallel.CallNeverStuck | pkg/pipeline/sync_parallel.go:98-114 | while a call collects, a receive or the landing of the owed SyncFrame is possible |
| SyncParallel.CallTerminates | pkg/pipeline/sync_parallel.go:98-114 | the moves of a call that still collects are fewer than what was left when they began plus three for every frame emitted meanwhile: once branches stop emitting, the call ends |
| SyncParallel.NoIdTwice | pkg/pipeline/sync_parallel.go:117-130 | what was forwarded is, epoch by epoch, each ID collected in the epoch exactly once; an epoch ends with the frames of a StartFrame call, which are de-duplicated too; the seen set holds the IDs of the open epoch |
| SyncParallel.FirstOfEachId | pkg/pipeline/sync_parallel.go:117-125 | a collected frame is forwarded, in its place, exactly if none before it and none since the last StartFrame has its ID |
| SyncParallel.InOrderLeavesNothing | pkg/pipeline/source_sink.go:77-92 | if sends land in order, nothing at all is pending between calls, and what was handed on is what branches emitted: call after call, branch after branch, in order of emission |
| Parallel.ParallelPipeline.OnDownstreamFromBranch | pkg/pipeline/parallel.go:93-132 | lifecycle frames count down and release frame and buffer; data is buffered in a round, else de-duplicated and filtered |
| Parallel.ParallelPipeline.BeginFrame | pkg/pipeline/parallel.go:154-160 | a lifecycle frame opens a round for all branches |
| Parallel.RoundOutput | pkg/pipeline/parallel.go:97-119 | a round outputs its frame once, exactly when all branches have emitted it, nothing before, and right after it the buffered frames in order of arrival |
| Parallel.RoundInProgress | pkg/pipeline/parallel.go:97-119 | until then nothing is output and the counter is the number of branches still missing |
| Parallel.TraceOutput | pkg/pipeline/parallel.go:93-168 | over any trace of rounds and free frames the output is the expected one |
| Parallel.FreeIdsOnce | pkg/pipeline/parallel.go:121-131 | of what the next processor is given outside rounds, every data ID that passes the filter is there once, and no other |
| FrameQueue.FrameQueue.Put | pkg/processors/queue.go:31-46 | appends to the class of the frame and leaves a token, or drops the item once closed |
| FrameQueue.FrameQueue.TryTake | pkg/processors/queue.go:51-68 | the locked part of Get: oldest system item, else oldest data item, else closed or empty |
| FrameQueue.NoLostWakeup | pkg/processors/queue.go:31-88 | a parked consumer with something to do has a token or a Close about to post one, and waking yields an item or the closed report |
| FrameQueue.WorkStays | pkg/processors/queue.go:31-88 | no other move ends the park, removes work or takes the token |
| FrameQueue.PriorityOrder | pkg/processors/queue.go:49-68 | each class comes out as a prefix of what was accepted; the next item is the oldest undelivered system frame if there is one |
| FrameQueue.ClosedMeansDrained | pkg/processors/queue.go:64-67 | when Get reports closed, everything accepted was delivered and nothing more is accepted |
| FrameQueue.AcceptedIsPut | pkg/processors/queue.go:31-46 | accepted is what was put in before the first Close, in order |
| FrameQueue.SystemFrames | pkg/processors/queue.go:90-96 | system frames are StartFrame, CancelFrame and ErrorFrame; a nil frame is none |
| Varint.AppendVarint | pkg/frames/serialize/wire.go:44-50 | appends the canonical encoding |
| Varint.ReadEncoded | pkg/frames/serialize/wire.go:70-85 | every uint64 is written in at most ten bytes and read back, the rest of the input untouched |
| Varint.ReadVarintBytes | pkg/frames/serialize/wire.go:70-85 | every well-formed varint of up to ten bytes, minimal or not, is read as its value modulo 2^64 |
| Varint.ReadConsumesAVarint | pkg/frames/serialize/wire.go:70-85 | a successful read consumed exactly such a varint |
| Varint.ReaderStep | pkg/frames/serialize/wire.go:73-83 | one byte of the shift-and-OR loop: nine bytes lose nothing, the tenth keeps one bit |
| Varint.StandardExamples | pkg/frames/serialize/wire.go:44-50 | the standard's examples: 1, 150 and 300 in their bytes |
| Varint.EncodedIsShortest | pkg/frames/serialize/wire.go:44-50 | no encoding is longer than needed |
| Wire.ByteReader.ReadVarint | pkg/frames/serialize/wire.go:70-85 | value, end of input or overflow, and the input left |
| Wire.ByteReader.ReadTag | pkg/frames/serialize/wire.go:87-93 | field number and wire type |
| Wire.ByteReader.ReadLengthDelimited | pkg/frames/serialize/wire.go:95-108 | data of up to 10^9 bytes, or which error |
| Wire.ReadsShorten | pkg/frames/serialize/wire.go:227-258 | remaining bytes decrease, so the decode loops terminate on every input |
| Wire.LastOneWins | pkg/frames/serialize/wire.go:227-368 | a payload of any well-formed fields in any order is accepted and yields under every field number the last value |
| Wire.OrderIrrelevant | pkg/frames/serialize/wire.go:227-368 | permuting fields with distinct keys changes nothing |
| Wire.LaterPayloadOverrides | pkg/frames/serialize/wire.go:227-368 | of two payloads in a row the second overrides the first field by field |
| Wire.TruncatedData | pkg/frames/serialize/wire.go:95-108 | data short of their declared length are refused, with which error; so is any length over 10^9 |
| Wire.TruncatedVarint | pkg/frames/serialize/wire.go:227-258 | a payload that stops inside a tag is taken for complete; inside a number it is refused if strict, else the number is 0 |
| WireFrames.DecodeTextFrameWire | pkg/frames/serialize/wire.go:227-270 | the loop computes the frame of the last values; varint errors count as 0 |
| WireFrames.DecodeTranscriptionFrameWire | pkg/frames/serialize/wire.go:272-322 | likewise, with AppendToContext set |
| WireFrames.DecodeAudioFrameWire | pkg/frames/serialize/wire.go:324-380 | likewise, strict about varints, 32-bit rate and channels, frame count recomputed |
| WireFrames.DecodeMessageFrameWire | pkg/frames/serialize/wire.go:382-400 | the first length-delimited field, whatever its number, if it is JSON |
| WireFrames.DecodeFrameWire | pkg/frames/serialize/wire.go:187-212 | dispatch on the outer field, with every error |
| WireFrames.RoundTrip | pkg/frames/serialize/wire.go:110-212 | decoding the encoding of any supported frame yields its carried fields exactly if the payload is at most 10^9 bytes and a message is JSON, else the length or the JSON error |
| WireFrames.LosslessExactly | pkg/frames/serialize/wire.go:146-184 | ID and wire fields survive exactly with non-zero ID, 32-bit rate and channels, time stamp absent or non-zero (negative allowed) |
| WireFrames.TextBytes | pkg/frames/serialize/wire.go:110-155 | a text frame byte for byte |
| WireFrames.TranscriptionBytes | pkg/frames/serialize/wire.go:156-166 | a transcription byte for byte |
| WireFrames.AudioBytes | pkg/frames/serialize/wire.go:168-184 | an audio frame byte for byte, signed numbers modulo 2^64 |
| WireFrames.MessageBytes | pkg/frames/serialize/wire.go:131-137 | a transport message byte for byte |
| WireFrames.NameIsTypeAndId | pkg/frames/serialize/wire.go:150-151 | the name is the type, a number sign and the ID in decimal digits |
| WireFrames.NotOnTheWire | pkg/frames/serialize/wire.go:259-322 | what decoding fills in: context flags, language, finality, kind of audio |
| WireFrames.CompleteFrames | pkg/frames/serialize/wire.go:324-380 | the recomputed frame count is that of complete frames |
| Envelope.AppendEnvelope | pkg/frames/proto/wire/envelope.go:34-48 | non-empty type and payload as fields 1 and 2 |
| Envelope.ReadVarint | pkg/frames/proto/wire/envelope.go:87-97 | the index-based reader agrees with the other reader; (0, -1) if there is no varint |
| Envelope.ParseEnvelope | pkg/frames/proto/wire/envelope.go:58-85 | walks fields until the input stops looking like one |
| Envelope.EnvelopeRoundTrip | pkg/frames/proto/wire/envelope.go:34-85 | parsing inverts appending |
| Envelope.EnvelopeBytes | pkg/frames/proto/wire/envelope.go:34-48 | an envelope byte for byte |
| Envelope.LastOneWins | pkg/frames/proto/wire/envelope.go:58-85 | of any fields in any order the last type and the last payload count |
| Envelope.PanicsExactly | pkg/frames/proto/wire/envelope.go:70-75 | the slice expression fails exactly on inputs that after well-formed fields declare a length that wraps the bound check |
| Envelope.OverlongLengthPanics | pkg/frames/proto/wire/envelope.go:70-75 | eleven bytes on which it fails: a length of 2^64 - 1 behind the tag of the type |
| Pcm.MixMono | pkg/audio/mix.go:7-35 | computes the mix byte for byte |
| Pcm.MixSamples | pkg/audio/mix.go:7-35 | length of the longer track, each sample the average rounded towards zero, no clamping, symmetric |
| Pcm.AverageIsHalfTheSum | pkg/audio/mix.go:20-30 | the average is half the sum, rounded towards zero |
| Pcm.SampleIsTwosComplement | pkg/audio/mix.go:18-25 | samples are 16-bit two's complement, low byte first |
| Pcm.MixConcat | pkg/audio/mix.go:7-35 | mixing aligned stretches one by one is mixing the whole |
| Pcm.InterleaveStereo | pkg/audio/mix.go:40-62 | computes the interleaving byte for byte |
| Pcm.InterleavedSamples | pkg/audio/mix.go:37-62 | left and right come back as even and odd samples |
| Pcm.InterleaveConcat | pkg/audio/mix.go:37-62 | interleaving aligned stretches one by one is interleaving the whole |
| Pcm.Resample16MonoAlloc | pkg/audio/resample.go:8-56 | computes the interpolation, copies at equal rates, nothing for rates of 0 or less |
| Pcm.ResampleSamples | pkg/audio/resample.go:16-48 | floor(n*out/in) samples, each the interpolated value |
| Pcm.SourceInBounds | pkg/audio/resample.go:26-44 | every index that is read exists |
| Pcm.SourceMonotone | pkg/audio/resample.go:28-29 | source indices never decrease |
| Pcm.ResampledBetween | pkg/audio/resample.go:38-45 | each sample lies between its two neighbours and fits int16 |
| Pcm.ResampledOnTheLine | pkg/audio/resample.go:26-46 | each sample is, rounded towards zero, the value at position i*in/out of the line through the two input samples around it; exactly the input sample where the position is one; the last one from there on |
| Pcm.OutLenIsFloor | pkg/audio/resample.go:16-17 | the number of output samples is n*out/in rounded down |
| Pcm.ResampleAtOneRate | pkg/audio/resample.go:8-15 | equal rates copy, a rate of 0 gives nothing |
| Pcm.ChunkedShortfall | pkg/audio/resample.go:16-17 | k separately resampled chunks fall short of the whole by at most k-1 samples |
| AudioBuffer.AudioBufferProcessor.ProcessFrame | pkg/processors/audio/audio_buffer_processor.go:139-242 | every frame in either direction: rate selection, default rates, padding, appending, turn buffers, flushing when full or at the end, and all callbacks and frames passed on in their order |
| AudioBuffer.AudioBufferProcessor.CallAudioDataHandlers | pkg/processors/audio/audio_buffer_processor.go:104-136 | aligns, merges, calls back what is set and resets |
| AudioBuffer.AudioBufferProcessor.StartRecording | pkg/processors/audio/audio_buffer_processor.go:64-71 | starts from empty tracks and turn buffers, whatever was buffered before |
| AudioBuffer.AudioBufferProcessor.StopRecording | pkg/processors/audio/audio_buffer_processor.go:73-84 | flushes what is left and clears the turn buffers |
| AudioBuffer.TracksStayAligned | pkg/processors/audio/audio_buffer_processor.go:139-242 | over all frames with whole samples: flushes have equal lengths, live buffers differ by at most the longest resampled frame and stay below a positive buffer size |
| AudioBuffer.TrackIsPaddedSound | pkg/processors/audio/audio_buffer_processor.go:86-136 | over all frames: each track is its side's resampled audio in order with only zero runs inserted, nothing lost |
| AudioBuffer.RecordingIsTheMix | pkg/processors/audio/audio_buffer_processor.go:94-136 | what a mono recording hands to its merged-audio callback, put together, is the mix of what it hands to the track callback, put together |
| AudioBuffer.RecordingIsInterleaved | pkg/processors/audio/audio_buffer_processor.go:94-136 | in stereo it is their interleaving, user samples at even and bot samples at odd places |
| AudioBuffer.PaddingExactly | pkg/processors/audio/audio_buffer_processor.go:86-136 | audio of one side pads the other track only up to where it begins, a flush pads the shorter track to the longer, nothing else pads; and when a flush happens |
| AudioBuffer.ZerosAreSilence | pkg/processors/audio/audio_buffer_processor.go:86-92 | padding is zeros |
| AudioBuffer.RateIsLatest | pkg/processors/audio/audio_buffer_processor.go:147-156 | the rate is the one the latest StartFrame set: the configured one, else the frame's, else 16000 |
| AudioBuffer.DefaultRates | pkg/processors/audio/audio_buffer_processor.go:174-233 | audio without a rate is taken for 16 kHz from the user and 24 kHz from the bot |
| AudioBuffer.EveryFrameIsPassedOn | pkg/processors/audio/audio_buffer_processor.go:139-166 | every frame in either direction is passed on once |
| AudioBuffer.TurnEndIsReported | pkg/processors/audio/audio_buffer_processor.go:199-216 | when a side stops speaking its turn audio is reported, if set and not empty, and starts anew |
| AudioBuffer.TurnAudioIsRecent | pkg/processors/audio/audio_buffer_processor.go:185-242 | turn buffers hold the latest of their side's resampled audio, while that side speaks at least all of it since it started, and nothing after a recording |
| AudioBuffer.OneSecondIsKept | pkg/processors/audio/audio_buffer_processor.go:186-191 | while the user is silent the buffer is exactly the last second, or all since the user stopped if less |
| Pcm.ResampleKeepsEven | pkg/audio/resample.go:16-48 | whole samples in, whole samples out |
| Wav.WritePcm16MonoWav | pkg/audio/dtmf_wav.go:54-80 | lays out the complete file |
| Wav.WriteEmptyWavHeader | pkg/recording/wav.go:12-61 | the header with both sizes 0 |
| Wav.FinalizeWav | pkg/recording/wav.go:64-92 | patching at 4 and 40 gives the header the sizes for these samples and channels modulo 2^32; bad counts are refused and change nothing |
| Wav.FileRecorder.WriteSamples | pkg/recording/recorder.go:69-90 | appends the samples, or refuses when closed or at another rate |
| Wav.FileRecorder.Close | pkg/recording/recorder.go:92-111 | the file is byte for byte what the one-shot writer lays out for all samples written; closing again changes nothing |
| Wav.DecodeWavToPcm | pkg/audio/wav.go:12-61 | the chunk walk with clamped sizes, in bounds and terminating on every input |
| Wav.DecodesBack | pkg/audio/wav.go:12-61 | decoding a complete file gives its samples and the low 32 bits of its rate; a file without samples is refused |
| Wav.DecodesAnyChunks | pkg/audio/wav.go:12-61 | files of any chunks in any order decode to the last non-empty data at the last format's rate, 48000 without one; refused if a format is not PCM or without data |
| Wav.FileBytes | pkg/recording/wav.go:12-92 | all 44 header bytes at their offsets |
| TurnTracking.TurnTrackingObserver.OnFrameProcessed | pkg/observers/turn_tracking.go:158-205 | a duplicate changes nothing, another frame does its step |
| TurnTracking.TurnTrackingObserver.OnTimerFired | pkg/observers/turn_tracking.go:112-119 | a firing ends an active turn unless the bot speaks |
| TurnTracking.IndexIsRecentIds | pkg/observers/turn_tracking.go:83-99 | set and history agree and hold the last maxFrames accepted IDs without repeats |
| TurnTracking.DuplicateExactly | pkg/observers/turn_tracking.go:162-169 | a frame is ignored exactly if its ID is among these |
| TurnTracking.TurnsAreBracketed | pkg/observers/turn_tracking.go:101-205 | over all frames and firings, stale ones included, callbacks read Started(1) Ended(1) Started(2) Ended(2) and so on |
| TurnTracking.Endings | pkg/observers/turn_tracking.go:177-204 | a turn ends as interrupted exactly by a cancel or by the user starting while the bot speaks; a timer ends it exactly while the bot does not |
| TurnTracking.Startings | pkg/observers/turn_tracking.go:173-191 | a turn starts exactly at the first StartFrame before any turn, or when the user starts speaking outside a turn, while the bot speaks, or after it has spoken |
| TurnTracking.TimerChanges | pkg/observers/turn_tracking.go:101-205 | exactly when a turn-end timer is referenced |
| TurnTracking.ReferencedTimerEndsTheTurn | pkg/observers/turn_tracking.go:101-121 | while a turn-end timer is referenced the bot is silent, so that its firing always ends the turn in progress |
| UserTurn.UserTurnController.ProcessVadUpdate | pkg/audio/turn/user_controller.go:55-90 | with the default strategies the update is one step in which both questions are answered yes |
| UserTurn.UserTurnController.OnStopTimer | pkg/audio/turn/user_controller.go:140-154 | a firing stops a turn only if the user is silent |
| UserTurn.UserTurnController.NotifyBotStoppedSpeaking | pkg/audio/turn/user_controller.go:94-103 | arms the idle timer outside user turns |
| UserTurn.UserTurnController.NotifyBotStartedSpeaking | pkg/audio/turn/user_controller.go:105-108 | disarms the idle timer and changes nothing else |
| UserTurn.UserTurnController.OnIdleTimer | pkg/audio/turn/user_controller.go:163-176 | every firing pushes an idle frame and touches nothing else |
| UserTurn.TurnsAlternate | pkg/audio/turn/user_controller.go:55-183 | default strategies: Started and Stopped strictly alternate, userTurn equals userSpeaking, a stop timer changes nothing |
| UserTurn.IdleInTurnExactly | pkg/audio/turn/user_controller.go:92-183 | idle frames come from firings of the idle timer only, inside a turn exactly if the latest VAD update says speech, and never from a timer that is still referenced |
| UserTurn.StaleIdleFrame | pkg/audio/turn/user_controller.go:163-183 | an idle frame inside a turn, from a timer stopped after it had fired |
| UserTurn.TurnFollowsVad | pkg/audio/turn/user_strategies_default.go:6-39 | the user has a turn exactly while the latest VAD update says speech |
| UserTurn.AnyStrategies | pkg/audio/turn/user_controller.go:55-154 | with any strategies a Started lies between any two Stopped |
| UserTurn.TurnChanges | pkg/audio/turn/user_controller.go:55-154 | with any strategies, what every event pushes and does to the turn, in terms of the VAD updates and the strategies' answers |
| UserTurn.TimerBacksTheTurn | pkg/audio/turn/user_controller.go:110-154 | with any strategies, while a turn is on and a stop timeout is set a stop timer is referenced |
| UserTurn.IdleTimerExactly | pkg/audio/turn/user_controller.go:92-108 | an idle timer is referenced exactly if the bot stopped outside a turn and nobody has spoken up since |
| BargeIn.WordsOfJoin | pkg/audio/interruptions/interruptions.go:41-50 | joining with a blank adds up the words |
| BargeIn.OneWord | pkg/audio/interruptions/interruptions.go:54-63 | a text without white space is one word |
| BargeIn.WordsAroundSpace | pkg/audio/interruptions/interruptions.go:54-63 | words before and after any white space add up |
| BargeIn.MinWordsStrategy.ShouldInterrupt | pkg/audio/interruptions/interruptions.go:54-63 | true exactly at MinWords words |
| BargeIn.InterruptionController.ProcessFrame | pkg/processors/voice/interruption_controller.go:41-105 | state change and output of every frame in either direction; without a strategy frames are only passed on |
| BargeIn.InterruptsAtThreshold | pkg/processors/voice/interruption_controller.go:60-103 | in an allowed bot turn the interruption comes at exactly the first finalized transcript at which the words since the user started reach the minimum, so at most once |
| BargeIn.NoInterruptionOtherwise | pkg/processors/voice/interruption_controller.go:88-101 | elsewhere, and without a strategy, there is none |
| BargeIn.EverythingIsForwarded | pkg/processors/voice/interruption_controller.go:88-105 | every frame is forwarded once and in order; an InterruptionFrame goes right before the transcript that drew it |
| BargeIn.OneFrameEach | pkg/processors/voice/interruption_controller.go:88-105 | each transcript that draws an interruption gets one InterruptionFrame |

## Left out

- Provider services, HTTP and WebSocket servers, storage, what is JSON (a predicate of the bytes), G.711 tables, the service switcher and the CLI: outside libraries, finite tables, or routing without a property to prove.
- Floating-point rounding, wall-clock durations, loggers and metrics; window loudness and voice confidence are uninterpreted functions.
- TurnAsync: the asynchronous branch of the turn processor is a machine over its atomic moves, not a class, because goroutines interleave with it; the user turn controller is told the verdict before the branch is entered, so its frames are not part of that machine.
- SyncParallel.BarrierHolds: takes branches to forward each SyncFrame once and inputs to be no SyncFrames.
- Parallel.TraceOutput: rounds do not overlap and each branch emits a round's frame once; traces that stop inside a round are covered by `RoundInProgress`.
- FrameQueue.NoLostWakeup: is about one consumer, as `QueuedProcessor.Run` is; several consumers are not modelled.
- TurnTracking.TurnsAreBracketed: events are delivered one at a time; the source releases its lock around callbacks. Durations passed to the callback are not modelled.
- UserTurn.TurnsAlternate: events are delivered one at a time and pushes succeed; the source has no lock.
- AudioBuffer.AudioBufferProcessor.ProcessFrame: the next processor is taken to accept every frame.
- Wav.DecodesBack: sizes from 2^32 on do not fit the format's fields and are excluded; file operations are taken to succeed.
- Envelope.EnvelopeRoundTrip: lengths within ten bytes of 2^64, which no Go slice has, are excluded.
- Turn-end timers, idle timers and channel capacity are events and bounds, not time.
