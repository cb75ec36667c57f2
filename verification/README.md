# VoxMesh capture pipeline: a Dafny model

VoxMesh records a meeting from one or two audio devices. Captured frames go through a lock-free
ring to a drain, which puts them on a continuous sample timeline and hands them to a lossless
recording and, downmixed and decimated, to a transcription service whose revised answers become
the transcript. This project models each stage as the code has it (branches, constants, error
paths and counters) and proves what the stages promise, alone and joined.

| file | stage |
|---|---|
| `Audio.dfy`, `Arithmetic.dfy`, `Sequences.dfy`, `Decimal.dfy` | shared vocabulary: frames, quotients, sequences, decimal numbers |
| `RingProtocol.dfy`, `RingBuffer.dfy` | the ring: two threads taking one memory access at a time, and the object |
| `FakeBackend.dfy`, `Pipeline.dfy`, `Timeline.dfy`, `Restarts.dfy` | the lossy source, its schedules, and the timeline theorems without and with restarts |
| `ClockSync.dfy`, `ClockSyncVerdicts.dfy`, `ClockSyncProofs.dfy`, `DriftProofs.dfy` | the per-track clock synchronizer, its verdicts and its drift estimate |
| `FirDecimator.dfy`, `SttStreamProducer.dfy`, `SttProducerProofs.dfy` | the transcription stream |
| `SttClient.dfy` | the upload queue, its writer thread, stop and restart |
| `RecordingWriter.dfy`, `RecordingWriterProofs.dfy` | chunked encoding and the life of the two files |
| `Controller.dfy`, `ControllerProofs.dfy`, `ControllerProgress.dfy` | capture, drain and UI threads over one mutex, and why no call gets stuck |
| `Uploading.dfy`, `UploadedStream.dfy` | the threads and the upload client together, and what is uploaded |
| `DrainPipeline.dfy`, `EndToEnd.dfy` | one drain over the objects, and the stages joined from source to file |
| `SavedRecording.dfy` | the threads and the writer together: what a saved file holds |
| `MockStt.dfy`, `Transcript.dfy` | the scripted server and the transcript kept from its revisions |
| `SemanticVersion.dfy` | version parsing, printing and precedence |

Objects that the code updates in place are classes; each method is proved equal to a
specification function of the old state, and the theorems are about that function over all runs.
Code that several threads run is a state machine whose steps are single memory accesses, critical
sections or calls made outside a lock; the theorems hold in every reachable state.

Results worth knowing before relying on the code:

- The alignment bound E is max(|jitter tolerance|, ceil(10^9 / rate)) ns, for every configuration,
  including negative tolerances and caps. A published drift estimate is a deviation of at most
  2E + 1 ns over the time actually elapsed, healed gaps included.
- The aligned track is as long as the wall time exactly when no run of losses outlasts the
  silence cap (`SavedTrackIsGapless`, both directions), and so is each track of a saved file over
  all its streams, however often it was paused (`SavedFileIsGapless`). When a device's clock
  jumps ahead, the track follows the time elapsed to within one sample's length
  (`RestartedTimeline`).
- A `sendFrame` that overlaps `stop()` can be accepted and then cleared without being counted
  (`LateSendIsLost`); the accounting is exact if and only if that never happens
  (`StoppedClientIsAccounted`). The recorder never does it (`RecorderIsDisciplined`).
- A track that is selected only at `resume()` is captured and aligned, and nothing of it is
  written, without an error or a count of what is missing (`OnlyRecordedTracksAreSaved`, reached
  by `LateTrackIsReachable`).
- The producer of the transcription stream is made at start and kept across pauses. A stream of
  another format than the one it was made for is rejected frame by frame
  (`OtherFeederIsRejected`), and the filter runs across a pause unless the first frame after it is
  flagged (`PauseIsHeardExactlyIfFlagged`).
- A `resume()` that fails leaves the session failed for good: every transport call is refused and
  the recording is neither finalized nor discarded (`FailedSessionIsStuck`, reached by
  `StuckSessionIsReachable`, caused by nothing else: `OnlyResumeFails`). Any other call
  has a step to take until it has returned (`CallIsNeverStuck`), and a stop that has begun gets
  through by those steps (`StopGetsThrough`).
- The recording interface promises that after a failed write the writer refuses further writes
  (libs/cpp/audio-core/include/voxmesh/audio/recording.hpp, lines 94-97). The code does not keep
  that: a stereo frame written to a mono track is refused and the mono frame after it is accepted
  (`MismatchDoesNotEndTheRecording`), because a format mismatch or a bad track index leaves the
  writer open (libs/cpp/media-container/src/ffmpeg_recording_writer.cpp, lines 108-117). It keeps
  it if and only if the failed write named a track of the writer and carried that track's format
  (`RefusalLastsExactlyAfterFailure`). The model follows the code.
- The scripted server's segment ids are distinct for exactly the first 10^11 segments, because the
  id is cut to fifteen characters (`IdsAreDistinct`); its timeline is contiguous if and only if at
  least one revision per segment is configured (`SegmentsAreContiguous`).

## Model

| member | source | states |
|---|---|---|
| RingProtocol.RefinesQueue | libs/cpp/audio-core/include/voxmesh/audio/ring_buffer.hpp:36-61 | with each side seeing a possibly old but never receding index of the other, every step of every interleaving is a step of a FIFO bounded by the capacity |
| RingProtocol.PoppedIsPrefixOfAccepted | libs/cpp/audio-core/include/voxmesh/audio/ring_buffer.hpp:36-61 | popped values are a prefix of accepted ones, at most `capacity` apart, and the slots from tail to head hold exactly the rest |
| RingProtocol.WritesDoNotRace | libs/cpp/audio-core/include/voxmesh/audio/ring_buffer.hpp:38-44 | a slot is written only after the producer has seen the pop that freed it |
| RingProtocol.ReadsDoNotRace | libs/cpp/audio-core/include/voxmesh/audio/ring_buffer.hpp:53-57 | a slot is read only after the consumer has seen it published, and is never the producer's target |
| RingProtocol.PushTestMeansFull | libs/cpp/audio-core/include/voxmesh/audio/ring_buffer.hpp:39-40 | the wrapped-index test holds exactly when the counts seen are a full ring apart |
| RingProtocol.PopTestMeansEmpty | libs/cpp/audio-core/include/voxmesh/audio/ring_buffer.hpp:54 | the wrapped-index test holds exactly when everything seen published was popped |
| RingProtocol.RefusalMeansFull | libs/cpp/audio-core/include/voxmesh/audio/ring_buffer.hpp:40-43 | a push is refused exactly when the ring was full as far as seen, and the refusal moves only the rejection counter |
| RingProtocol.EmptyMeansDrained | libs/cpp/audio-core/include/voxmesh/audio/ring_buffer.hpp:53-56 | a pop finds nothing exactly when all it had seen was popped, and then changes nothing |
| RingProtocol.CountersTrail | libs/cpp/audio-core/include/voxmesh/audio/ring_buffer.hpp:45-46 | pushed minus popped stays between -1 and capacity + 1, and is exact at rest |
| RingProtocol.SizeIsPlausible | libs/cpp/audio-core/include/voxmesh/audio/ring_buffer.hpp:66-71 | size() answers between 0 and capacity whatever two moments it reads, and exactly when it reads one |
| RingProtocol.StepKeeps | libs/cpp/audio-core/include/voxmesh/audio/ring_buffer.hpp:36-61 | the invariant relating slots, wrapped indices, views and counters survives every atomic step |
| RingBuffer.WholePushIsProtocol | libs/cpp/audio-core/include/voxmesh/audio/ring_buffer.hpp:36-48 | an uninterrupted tryPush is the protocol's steps taken in order |
| RingBuffer.WholePopIsProtocol | libs/cpp/audio-core/include/voxmesh/audio/ring_buffer.hpp:51-61 | an uninterrupted tryPop is the protocol's steps taken in order |
| RingBuffer.SpscRingBuffer.TryPush | libs/cpp/audio-core/include/voxmesh/audio/ring_buffer.hpp:36-48 | a full buffer refuses, otherwise the item goes in last |
| RingBuffer.SpscRingBuffer.TryPop | libs/cpp/audio-core/include/voxmesh/audio/ring_buffer.hpp:51-61 | an empty buffer yields nothing, otherwise the oldest item comes out |
| RingBuffer.SpscRingBuffer.Size | libs/cpp/audio-core/include/voxmesh/audio/ring_buffer.hpp:66-71 | the number of items held, over the wrap |
| ClockSync.TrackSynchronizer.Process | libs/cpp/audio-core/src/clock_sync.cpp:76-129 | the state left and frames returned are those of the specification step, whose verdicts are told from timestamps and counts alone in the rows of `ClockSyncVerdicts` |
| ClockSync.TrackSynchronizer.HealGap | libs/cpp/audio-core/src/clock_sync.cpp:89-110 | silence up to the cap, then re-anchoring and a flag, or continuity |
| ClockSync.TrackSynchronizer.UpdateDrift | libs/cpp/audio-core/src/clock_sync.cpp:59-74 | the estimate moves only on a full window, which always restarts; its value and sign are in `ClockSyncVerdicts.WindowIsMeasured` |
| ClockSync.TrackSynchronizer.AnchorAt | libs/cpp/audio-core/src/clock_sync.cpp:49-57 | the sample count and the drift window start over at the timestamp |
| ClockSync.TrackSynchronizer.MakeSilenceFrame | libs/cpp/audio-core/src/clock_sync.cpp:31-47 | flagged zeros in the configured format, numbered next |
| ClockSyncVerdicts.SteadyFramesPass | libs/cpp/audio-core/src/clock_sync.cpp:76-129 | over every run and configuration no gap and no overlap is found if and only if every frame is within the tolerance of where the samples before it end, and then the frames come out as they went in, numbered from zero, with nothing in between |
| ClockSyncVerdicts.InBandPasses | libs/cpp/audio-core/src/clock_sync.cpp:111-121 | a frame within the tolerance, on either side, passes with its own flag and moves no counter but that of frames |
| ClockSyncVerdicts.LateIsHealed | libs/cpp/audio-core/src/clock_sync.cpp:89-110 | a later frame within the cap is preceded by as many whole samples of silence as it is late and loses its flag; one gap is counted healed |
| ClockSyncVerdicts.BeyondCapIsTruncated | libs/cpp/audio-core/src/clock_sync.cpp:89-106 | a frame later than the cap is preceded by the cap's silence, flagged, and a new anchor; one gap is counted truncated |
| ClockSyncVerdicts.EarlyIsOverlap | libs/cpp/audio-core/src/clock_sync.cpp:111-118 | a frame earlier than the tolerance keeps its samples, is flagged, and a new anchor; one overlap is counted |
| ClockSyncVerdicts.VerdictsAreExact | libs/cpp/audio-core/src/clock_sync.cpp:89-118 | each of those counters moves exactly for its verdict, and by one |
| ClockSyncVerdicts.WindowIsMeasured | libs/cpp/audio-core/src/clock_sync.cpp:59-74 | a full window publishes how much longer the timestamps took than the samples, in parts of a million of the samples' time, positive when they took longer; a window not full changes nothing |
| ClockSyncProofs.FillResidual | libs/cpp/audio-core/src/clock_sync.cpp:16-29 | the two floor divisions together never overshoot a gap and leave at most ceil(10^9 / rate) ns open |
| ClockSyncProofs.FramesFollowTheSampleClock | libs/cpp/audio-core/src/clock_sync.cpp:82-126 | over every run each captured frame's timestamp is within E of its sample-clock position, whichever branch it took |
| ClockSyncProofs.CallsArePunctual | libs/cpp/audio-core/src/clock_sync.cpp:82-126 | the same by the synchronizer's own sample count, for every configuration: after each call the frame is within E of it, and the drift estimate is bounded |
| ClockSyncProofs.DriftEstimateIsBounded | libs/cpp/audio-core/src/clock_sync.cpp:59-74 | the drift anchor never passes the sample count; every published estimate times the time elapsed, at least a full window, is 10^6 times a deviation of at most 2E + 1 ns, healed gaps included |
| DriftProofs.DriftIsMeasured | libs/cpp/audio-core/src/clock_sync.cpp:59-74 | over every run the published estimate is that of a meter reading the outputs alone: no window is missed or measured twice, and a valid estimate times the length of the outputs between two of them, at least a window, is 10^6 times how much longer their timestamps are apart, at most 2E + 1 ns |
| ClockSyncProofs.SilenceIsWellPlaced | libs/cpp/audio-core/src/clock_sync.cpp:85-110 | every output that was not captured is zeros starting at the sample clock's end, never past the next frame, short by less than a sample or else the whole cap before a flagged anchor |
| ClockSyncProofs.RunConserves | libs/cpp/audio-core/src/clock_sync.cpp:76-129 | captured payloads come out in order and unchanged, outputs are numbered 0, 1, 2, and processed plus synthesized is the next number |
| ClockSyncProofs.SamplesAreConserved | libs/cpp/audio-core/src/clock_sync.cpp:94-99 | samples out are samples in plus the silence accounted for, if and only if there are channels to hold silence or none was needed |
| ClockSyncProofs.EpochsAreCounted | libs/cpp/audio-core/src/clock_sync.cpp:82-118 | the timeline is anchored afresh once at the start and once for each truncation or overlap, and never otherwise |
| FakeBackend.FakeCaptureStream.EmitFrames | libs/cpp/audio-core/src/testing/fake_backend.cpp:21-55 | each frame is offered in turn; a refusal is counted as a drop and marks the next frame |
| FakeBackend.FakeCaptureStream.SkipFrames | libs/cpp/audio-core/src/testing/fake_backend.cpp:57-69 | skipped frames take their numbers and time, are counted as drops and mark the next frame |
| FakeBackend.FakeCaptureStream.Restart | libs/cpp/audio-core/src/testing/fake_backend.cpp:71-78 | a running stream's clock jumps by the gap and the next frame is marked; a stopped one ignores it |
| Pipeline.EmitFramesIsASchedule | libs/cpp/audio-core/src/testing/fake_backend.cpp:21-55 | what the stream object does is one of the schedules the pipeline theorems quantify over |
| Pipeline.LossIsNeverSilent | libs/cpp/audio-core/src/testing/fake_backend.cpp:21-78 | for every schedule, restarts included, a jump in popped numbers is flagged; emitted + dropped is the next number; emitted is popped plus queued |
| Pipeline.FlagsAreExact | libs/cpp/audio-core/src/testing/fake_backend.cpp:21-78 | the next frame delivered is flagged exactly when a refusal, a loss or a restart disturbed the running stream since the last one |
| Pipeline.DeliveredFramesAreCaptured | libs/cpp/audio-core/src/testing/fake_backend.cpp:21-78 | for every schedule each frame the ring took is the one its emission calls for: the payload generated next, refused frames having used up theirs, numbered by all frames generated or lost before it and timed by that number and the restarts |
| Timeline.FramesAreExact | libs/cpp/audio-core/src/clock_sync.cpp:16-29 | when rate times frame length is a multiple of 1000, whole frames convert both ways without rounding |
| Timeline.TimelineIsGapless | libs/cpp/audio-core/src/clock_sync.cpp:76-129 | the aligned audio never exceeds the wall time and fills it if and only if every run of losses is within the cap |
| Timeline.FramesSitOnTheTimeline | libs/cpp/audio-core/src/clock_sync.cpp:76-129 | then the frame numbered q starts after exactly (q - first) times the frame's samples |
| Timeline.EndToEndTimeline | libs/cpp/audio-core/src/testing/fake_backend.cpp:21-78 | both for every schedule of emission, loss, refusal and consumption and every configuration: the length, and when it is the wall time also every frame's offset; never an overlap, and no truncation exactly when the length is the wall time and tolerance and cap are not both negative |
| Restarts.UnbrokenRunFollowsTime | libs/cpp/audio-core/src/clock_sync.cpp:82-126 | whatever the frames and timestamps: if nothing was truncated or overlapped, the output before the last frame is as long as the time since the first, to within E |
| Restarts.OutputFollowsElapsedTime | libs/cpp/audio-core/src/clock_sync.cpp:82-126 | frames that are late by losses or restarts: the output is never longer than the time elapsed and short by at most one sample's length, unless a gap was truncated; none is if every delay stays a sample's length below the cap, one is if a delay exceeds it |
| Restarts.RestartedTimeline | libs/cpp/audio-core/src/testing/fake_backend.cpp:21-78 | the same for every schedule of emission, loss, refusal, consumption and restarts that move the clock forward |
| FirDecimation.RoundIsNearest | libs/cpp/audio-dsp/src/fir_decimator.cpp:33-37 | rounding is to the nearest integer, halves away from zero |
| FirDecimation.DecimationIsConvolution | libs/cpp/audio-dsp/src/fir_decimator.cpp:49-68 | output m is the sum of h[k] times x[m * factor - k], zero before the start, rounded to the nearest integer with halves away from zero, and 32767 or -32768 for a sum outside that range; ceil(n / factor) outputs in all |
| FirDecimation.ImpulseBringsOutTaps | libs/cpp/audio-dsp/src/fir_decimator.cpp:57-63 | a single sample in silence brings out the coefficients in order, scaled by it |
| FirDecimation.SumsAdd | libs/cpp/audio-dsp/src/fir_decimator.cpp:57-63 | the sum of two signals brings out the sum of what each does, which with the impulse settles every output |
| FirDecimation.DecimatedGrows | libs/cpp/audio-dsp/src/fir_decimator.cpp:49-68 | more input only appends output, so the split into calls does not matter |
| FirDecimation.FactorOneIsIdentity | libs/cpp/audio-dsp/src/fir_decimator.cpp:41-47 | factor 1 returns its input |
| FirDecimation.FirDecimator.Process | libs/cpp/audio-dsp/src/fir_decimator.cpp:49-68 | the circular history appends exactly the convolution's next outputs, in the code's order of summation |
| FirDecimation.FirDecimator.Convolve | libs/cpp/audio-dsp/src/fir_decimator.cpp:57-63 | the circular sum is the direct one over the last samples heard |
| FirDecimation.FirDecimator.Reset | libs/cpp/audio-dsp/src/fir_decimator.cpp:70-75 | afterwards the filter is as freshly built |
| SttProducer.EncodeRoundTrip | libs/cpp/audio-dsp/src/stt_stream_producer.cpp:51-81 | sixteen-bit samples survive the bytes, which are two a sample, low byte first, in two's complement |
| SttProducer.DecodeIsLittleEndian | libs/cpp/audio-dsp/src/stt_stream_producer.cpp:50-63 | the samples read from any payload are those of its byte pairs, low byte first |
| SttProducer.MonoIsHeard | libs/cpp/audio-dsp/src/stt_stream_producer.cpp:51-63 | one channel is heard as it is, of two the truncated mean of each whole pair |
| SttProducer.DownmixIsMean | libs/cpp/audio-dsp/src/stt_stream_producer.cpp:55-59 | the downmix is the mean truncated toward zero, between the channels |
| SttProducer.Create | libs/cpp/audio-dsp/src/stt_stream_producer.cpp:9-22 | a producer is made exactly for integer PCM, one or two channels into one, an input rate that is a multiple of the output rate and frames of at least one sample; its plan has that factor and as many whole samples a frame as its length holds |
| SttProducer.SttStreamProducer.Process | libs/cpp/audio-dsp/src/stt_stream_producer.cpp:31-88 | the state and outputs of the specification step: reject, reset, downmix, decimate, reframe |
| SttProducer.SttStreamProducer.DownmixStereo | libs/cpp/audio-dsp/src/stt_stream_producer.cpp:53-60 | one truncated mean for each interleaved pair |
| SttProducer.SttStreamProducer.EmitPending | libs/cpp/audio-dsp/src/stt_stream_producer.cpp:67-86 | whole frames are cut off the front until less than one is pending |
| SttProducerProofs.DrainConserves | libs/cpp/audio-dsp/src/stt_stream_producer.cpp:67-86 | reframing loses and reorders nothing |
| SttProducerProofs.PayloadIsDecimatedStretches | libs/cpp/audio-dsp/src/stt_stream_producer.cpp:31-88 | over every run the payloads followed by what is pending are the fresh-filter decimations of the stretches between accepted discontinuities; less than a frame is pending |
| SttProducerProofs.ChunkingIsInvisible | libs/cpp/audio-dsp/src/stt_stream_producer.cpp:65-86 | two ways of cutting the same stretches into frames give the same stream |
| SttProducerProofs.OutputsAreStamped | libs/cpp/audio-dsp/src/stt_stream_producer.cpp:67-79 | output k has number k, the anchor plus the whole nanoseconds of k frames as its timestamp, and exactly one frame of samples |
| SttProducerProofs.SamplesAreAccounted | libs/cpp/audio-dsp/src/stt_stream_producer.cpp:50-86 | N samples in s stretches give D outputs with N <= factor * D <= N + s * (factor - 1) |
| SttProducerProofs.RejectedMeansOtherFormat | libs/cpp/audio-dsp/src/stt_stream_producer.cpp:34-38 | a frame is rejected, and only the count of rejected frames changes, exactly when its format, rate or channels are not the configured ones |
| SttProducerProofs.OtherFormatIsRejected | libs/cpp/audio-dsp/src/stt_stream_producer.cpp:31-42 | more frames are all rejected and counted exactly when none carries the configured format, and then outputs and state are as before |
| SttProducerProofs.StreamsAreSpliced | libs/cpp/audio-dsp/src/stt_stream_producer.cpp:43-49 | the stretches of two streams in a row: the last of the first and the first of the second are one, unless the second's first accepted frame is flagged |
| SttProducerProofs.SpliceIsHeardExactlyUnflagged | libs/cpp/audio-dsp/src/stt_stream_producer.cpp:43-49 | they stay apart if and only if that frame is flagged or one of the streams had nothing accepted |
| SttProducerProofs.FlagsAreExact | libs/cpp/audio-dsp/src/stt_stream_producer.cpp:43-76 | an output is flagged exactly when a discontinuous frame was accepted since the one before it |
| SttClient.SessionsAreOrderedAndCounted | libs/cpp/streaming-client/src/grpc_stt_stream_client.cpp:59-156 | in every interleaving with restarts the queue is bounded, what a session sent is a prefix of what it accepted, and every call is sent, dropped, queued, in flight or cleared |
| SttClient.SendIsDroppedExactly | libs/cpp/streaming-client/src/grpc_stt_stream_client.cpp:59-71 | in every interleaving a frame is dropped and counted if and only if the client is stopped, broken or holding capacity requests |
| SttClient.StoppedClientIsAccounted | libs/cpp/streaming-client/src/grpc_stt_stream_client.cpp:73-99 | when stopped, sent and dropped account for every call if and only if no send was accepted after a writer had gone |
| SttClient.LateSendIsLost | libs/cpp/streaming-client/src/grpc_stt_stream_client.cpp:63-98 | a concrete interleaving in which a frame is accepted and lost without being counted |
| SttClient.DisciplinedClientLosesNothing | libs/cpp/streaming-client/src/grpc_stt_stream_client.cpp:59-99 | with no send during stop, every call is sent or dropped once the client has stopped |
| SttClient.FailureEndsTheSession | libs/cpp/streaming-client/src/grpc_stt_stream_client.cpp:146-152 | after a failed write nothing is sent or accepted until the next start, and every send is counted as dropped |
| SttClient.StopIsNeverStuck | libs/cpp/streaming-client/src/grpc_stt_stream_client.cpp:80-85 | once stop has begun the writer can always move and each move brings it nearer to leaving, whatever the stream answers |
| SttClient.OnlySendsDelayStop | libs/cpp/streaming-client/src/grpc_stt_stream_client.cpp:80-85 | only an accepted send can put that off |
| SttClient.SttStreamClient.SendFrame | libs/cpp/streaming-client/src/grpc_stt_stream_client.cpp:59-71 | accepted, and last in the queue, exactly when running, unbroken and holding fewer than capacity; otherwise counted as dropped |
| SttClient.SttStreamClient.StartSession | libs/cpp/streaming-client/src/grpc_stt_stream_client.cpp:27-57 | refused while running or when the connection fails; otherwise a fresh session |
| SttClient.SttStreamClient.TakeRequest | libs/cpp/streaming-client/src/grpc_stt_stream_client.cpp:137-145 | the oldest request, or the writer leaves because the queue is empty |
| SttClient.SttStreamClient.DropRest | libs/cpp/streaming-client/src/grpc_stt_stream_client.cpp:146-152 | the failed request and all queued ones are counted as dropped |
| SttClient.SttStreamClient.WriteLoop | libs/cpp/streaming-client/src/grpc_stt_stream_client.cpp:133-156 | left alone, from wherever the writer is, it takes its turns until it has to wait or leaves |
| SttClient.WriterDrains | libs/cpp/streaming-client/src/grpc_stt_stream_client.cpp:133-156 | those turns empty the queue, whatever the stream answers, and touch no one else's fields |
| SttClient.SttStreamClient.StopSession | libs/cpp/streaming-client/src/grpc_stt_stream_client.cpp:73-99 | wherever the writer is, the queue is emptied, and, when no send before it was late, sent plus dropped is every call made |
| RecordingWriter.Create | libs/cpp/media-container/src/ffmpeg_recording_writer.cpp:60-104 | exactly an empty file name, no tracks, floating-point samples, a rate of zero or channels outside one to eight is refused before FFmpeg is asked; one track makes FLAC, more make Matroska |
| RecordingWriter.Writer.EncodeBuffered | libs/cpp/media-container/src/ffmpeg_recording_writer.cpp:253-278 | chunks leave the queue until less than one remains, or nothing does, or FFmpeg fails at any of its three calls |
| RecordingWriter.Writer.Write | libs/cpp/media-container/src/ffmpeg_recording_writer.cpp:106-133 | the specification's outcome for wrong state, wrong format, empty frame, failure and success |
| RecordingWriter.Writer.Finalize | libs/cpp/media-container/src/ffmpeg_recording_writer.cpp:135-160 | every track drained and flushed up to the first failure, then the trailer and the rename |
| RecordingWriter.Writer.Abort | libs/cpp/media-container/src/ffmpeg_recording_writer.cpp:162-171 | the partial file goes only from an open or failed writer |
| RecordingWriterProofs.CutConserves | libs/cpp/media-container/src/ffmpeg_recording_writer.cpp:253-278 | the reference cut loses nothing, makes only full chunks and leaves less than one |
| RecordingWriterProofs.SampleFramesAreThePayload | libs/cpp/media-container/src/ffmpeg_recording_writer.cpp:119-124 | what goes into the queue is the payload in whole sample frames, less than one of which is left over |
| RecordingWriterProofs.CutAllConserves | libs/cpp/media-container/src/ffmpeg_recording_writer.cpp:253-278 | the whole cut loses nothing and has at most its last chunk short, each stamped by those before it |
| RecordingWriterProofs.EncodedCuts | libs/cpp/media-container/src/ffmpeg_recording_writer.cpp:253-278 | encoding appends the cut of the queue, or a first part of it when FFmpeg fails |
| RecordingWriterProofs.OpenTrackConserves | libs/cpp/media-container/src/ffmpeg_recording_writer.cpp:106-133 | while open, chunks followed by the queue are the accepted samples, every chunk is full and stamped by the samples before it, and less than a chunk waits |
| RecordingWriterProofs.WriteSizesAreInvisible | libs/cpp/media-container/src/ffmpeg_recording_writer.cpp:119-133 | the same samples written in other sizes give the same track |
| RecordingWriterProofs.FinalizedFileIsComplete | libs/cpp/media-container/src/ffmpeg_recording_writer.cpp:135-160 | a finalized track holds every accepted sample once, in order, as many as the statistics say, in chunks of the size its encoder asked for, or 4096 samples, with at most one short last chunk |
| RecordingWriterProofs.FailureKeepsThePrefix | libs/cpp/media-container/src/ffmpeg_recording_writer.cpp:299-304 | after a failure the partial file is kept, and what the encoder took is a prefix of what was offered, short of what was accepted by less than a chunk |
| RecordingWriterProofs.FilesFollowTheLifecycle | libs/cpp/media-container/src/ffmpeg_recording_writer.cpp:135-171 | the partial file lives until a finalize that returned true or a deliberate abort; the final name appears only through the first and never changes |
| RecordingWriterProofs.RefusalsAreHarmless | libs/cpp/media-container/src/ffmpeg_recording_writer.cpp:106-133 | a write is refused exactly in the wrong state, for a track that is not there or a frame of another format, rate or channel count; it counts nothing, sets the error for its reason alone, and only FFmpeg failing ends the recording |
| RecordingWriterProofs.WriteSucceedsExactly | libs/cpp/media-container/src/ffmpeg_recording_writer.cpp:106-133 | a write succeeds if and only if it is not refused and FFmpeg fails neither in storing its samples nor in the chunks they complete |
| RecordingWriterProofs.FinalizeSucceedsExactly | libs/cpp/media-container/src/ffmpeg_recording_writer.cpp:135-160 | finalizing succeeds if and only if the writer is open and FFmpeg fails on none of the tracks, the trailer or the rename; otherwise the error and the state say so |
| RecordingWriterProofs.RefusalLastsExactlyAfterFailure | libs/cpp/media-container/src/ffmpeg_recording_writer.cpp:106-133 | after a write that failed on an open writer every later write is refused if and only if the failed one named a track and carried its format |
| RecordingWriterProofs.MismatchDoesNotEndTheRecording | libs/cpp/media-container/src/ffmpeg_recording_writer.cpp:111-117 | a run in which a write fails and a later one succeeds |
| ControllerProofs.StepKeeps | apps/desktop-recorder/src/recorder_controller.cpp:89-193 | the invariant of the three threads survives every step |
| ControllerProofs.CallsActInTheirState | apps/desktop-recorder/src/recorder_controller.cpp:89-156 | start acts when idle with a track selected and a writer made, pause when recording, resume when paused, stop when recording or paused, and none otherwise |
| ControllerProofs.OutcomeIsExact | apps/desktop-recorder/src/recorder_controller.cpp:149-180 | saved exactly when stopped with something written, no failed write and a finalize that returned true; kept exactly when stopped and one of those failed; discarded after a failed start or with nothing written |
| ControllerProofs.SelectionFollowsCalls | apps/desktop-recorder/src/recorder_controller.cpp:307-331 | which tracks are captured is what the last start or resume was asked for, and only selected tracks are |
| ControllerProofs.OneConsumer | apps/desktop-recorder/src/recorder_controller.cpp:343-395 | the rings have at most one consumer at a time, the holder of the mutex |
| ControllerProofs.StoppedStreamsAreDrained | apps/desktop-recorder/src/recorder_controller.cpp:333-349 | when stopStreams lets go, every accepted frame was aligned once and in order, and all of it was written unless a write failed |
| ControllerProofs.SavedRecordingIsComplete | apps/desktop-recorder/src/recorder_controller.cpp:149-180 | a saved track is its streams spliced together, across every pause |
| ControllerProofs.OnlyRecordedTracksAreSaved | apps/desktop-recorder/src/recorder_controller.cpp:137-180 | a saved recording holds all that was captured of a track if and only if the track was the writer's or gave nothing; of any other track it holds nothing |
| ControllerProofs.SelectionAtStartDecides | apps/desktop-recorder/src/recorder_controller.cpp:399-421 | only a start that makes a writer settles which tracks it has; no resume and no other step changes that |
| ControllerProofs.LateTrackIsReachable | apps/desktop-recorder/src/recorder_controller.cpp:137-147 | a run in which a track selected at resume is captured and aligned and is not the writer's |
| ControllerProofs.KeptRecordingIsAPrefix | apps/desktop-recorder/src/recorder_controller.cpp:149-180 | whatever closing decides and whether or not a write failed, the writer took a first part of each of its tracks, in order |
| ControllerProofs.WritesReachAnOpenWriter | apps/desktop-recorder/src/recorder_controller.cpp:369-380 | the writer is open, unfailed and has the track at every write, though it was checked once per frame |
| ControllerProofs.UploadsDoNotOverlapStop | apps/desktop-recorder/src/recorder_controller.cpp:361-367 | the client is connected and not being stopped at every send, though it was checked once per frame |
| ControllerProofs.HangUpWaitsForUploads | apps/desktop-recorder/src/recorder_controller.cpp:521-531 | the client is taken away only between two drains |
| Uploading.RecorderIsDisciplined | apps/desktop-recorder/src/recorder_controller.cpp:361-367 | the recorder's use of a client is a legal run of it in which no send overlaps a stop, and once stopped every call was sent or dropped |
| UploadedStream.UploadIsOneRun | apps/desktop-recorder/src/recorder_controller.cpp:351-382 | in every interleaving the frames a client was handed, one call each, are a first part of one producer's output over what the feeding tracks gave, and once stop takes the client away all of it, across every pause; each stream was fed from the microphone if and only if it was selected for that stream |
| UploadedStream.MicrophoneIsUploaded | apps/desktop-recorder/src/recorder_controller.cpp:307-331 | whatever the threads do, what is fed or sent is from the microphone when it is selected and from system output otherwise, and that track is selected and captured |
| UploadedStream.FeedersFollowMicrophone | apps/desktop-recorder/src/recorder_controller.cpp:307-331 | over every run, of each earlier stream: it was fed from the microphone exactly when the microphone was selected for it |
| UploadedStream.MicrophoneIsSent | apps/desktop-recorder/src/recorder_controller.cpp:307-331 | a run with both tracks selected whose first request comes from the microphone |
| UploadedStream.UploadIsItsRuns | apps/desktop-recorder/src/recorder_controller.cpp:357-367 | with the synchronizers in place: one producer's run over each stream's aligned output, from the microphone where it was selected and from system output otherwise |
| UploadedStream.PauseIsHeardExactlyIfFlagged | apps/desktop-recorder/src/recorder_controller.cpp:121-135 | the filter runs on across a pause unless the first frame captured after it is flagged or it had heard nothing |
| UploadedStream.OtherFeederIsRejected | apps/desktop-recorder/src/recorder_controller.cpp:489-498 | every output of a resumed stream is rejected by the producer made at start if and only if their formats differ or the stream is empty |
| ControllerProgress.CallIsNeverStuck | apps/desktop-recorder/src/recorder_controller.cpp:89-193 | until a call returns, the UI thread or the drain holding the mutex has a step to take, and it brings the return nearer, whatever is answered |
| ControllerProgress.OnlyDrainsDelayStop | apps/desktop-recorder/src/recorder_controller.cpp:333-349 | once the streams have stopped, only the drain thread taking the mutex again puts the return off |
| ControllerProgress.StopGetsThrough | apps/desktop-recorder/src/recorder_controller.cpp:149-193 | those steps taken in turn, a pause, a stop or a failed start that has begun ends: paused with the recording open, or idle with the writer closed and the client gone |
| ControllerProofs.OnlyResumeFails | apps/desktop-recorder/src/recorder_controller.cpp:137-147 | the session is left failed exactly by a resume whose streams do not open |
| ControllerProofs.FailedSessionIsStuck | apps/desktop-recorder/src/recorder_controller.cpp:89-193 | from then on, whatever the threads do, no transport call changes anything, and the recording is neither finalized nor discarded |
| ControllerProofs.StuckSessionIsReachable | apps/desktop-recorder/src/recorder_controller.cpp:137-147 | a concrete run that ends there |
| DrainPipeline.Drain.DrainPipelineLocked | apps/desktop-recorder/src/recorder_controller.cpp:351-382 | the ring is emptied, and each frame in turn is aligned, counted, uploaded and, until a write fails, written |
| DrainPipeline.Drain.HandOn | apps/desktop-recorder/src/recorder_controller.cpp:360-380 | a frame's outputs go first to the uploader, then to the writer up to its first failure |
| DrainPipeline.Drain.WriteAll | apps/desktop-recorder/src/recorder_controller.cpp:372-379 | outputs are written up to the first failure, which is remembered |
| DrainPipeline.Drain.FeedAll | apps/desktop-recorder/src/recorder_controller.cpp:361-367 | each output goes through the producer and every frame it makes to the client |
| DrainPipeline.PassAppend | apps/desktop-recorder/src/recorder_controller.cpp:357-358 | draining in pieces aligns as draining at once |
| DrainPipeline.DrainIsPassAndDeliver | apps/desktop-recorder/src/recorder_controller.cpp:351-382 | a whole drain is the frames through the synchronizer, every output counted, and the joined outputs to the uploader if the pipeline feeds it and to the writer if it has a track for it |
| EndToEnd.PassIsRun | apps/desktop-recorder/src/recorder_controller.cpp:357-358 | however drains were cut, a stream's outputs are one run of the synchronizer |
| EndToEnd.AlignedIsRun | apps/desktop-recorder/src/recorder_controller.cpp:357-358 | with the synchronizer in place, the threads' alignment of a stream is its run |
| EndToEnd.SavedRecordingIsItsRuns | apps/desktop-recorder/src/recorder_controller.cpp:149-180 | whatever the threads did, each saved track is, for each of its streams, one run of the synchronizer configured for that track |
| EndToEnd.TapeIsRun | apps/desktop-recorder/src/recorder_controller.cpp:372-379 | while nothing fails the writer accepts every sample of every output the drain hands it |
| EndToEnd.FeedIsRun | apps/desktop-recorder/src/recorder_controller.cpp:361-367 | what a drain uploads is one run of the producer over the outputs, each frame one sendFrame in order |
| EndToEnd.SendsAreCounted | apps/desktop-recorder/src/recorder_controller.cpp:363-366 | however full the queue, each of those sends is queued or dropped and counted |
| EndToEnd.SavedTrackHoldsTheRun | libs/cpp/media-container/src/ffmpeg_recording_writer.cpp:106-160 | the finalized track is the samples of the synchronizer's run over what was popped |
| EndToEnd.JoinedRunsFillSlots | libs/cpp/audio-core/src/clock_sync.cpp:76-129 | several streams, each through a fresh synchronizer, are together as long as the time they were capturing, to the sample, if and only if no run of losses in any of them outlasts the cap, and never longer |
| EndToEnd.SavedTrackIsGapless | libs/cpp/audio-core/src/clock_sync.cpp:76-129 | from emission to file: the saved track is as long as the wall time, to the sample, if and only if no run of losses outlasts the cap |
| SavedRecording.SavedFileHoldsTheRuns | apps/desktop-recorder/src/recorder_controller.cpp:149-180 | for every interleaving, any number of pauses, one track or both: each track of a saved file holds the samples of its synchronizer's runs, one stream after the other, and nothing else |
| SavedRecording.SavedTracksAreInOrder | apps/desktop-recorder/src/recorder_controller.cpp:399-421 | a saved file has a track for each selected at start, the microphone first, each holding its own runs, in its own format, in chunks of its own encoder's size |
| SavedRecording.SavedFileIsGapless | apps/desktop-recorder/src/recorder_controller.cpp:149-180 | for every interleaving and any number of pauses: a track of a saved file is as long as the time its streams were capturing, to the sample, if and only if no run of losses in any of them outlasts the cap, and never longer |
| SavedRecording.OutcomeIsOnDisk | apps/desktop-recorder/src/recorder_controller.cpp:155-180 | saved means the final file alone, kept the partial file alone, discarded neither |
| SavedRecording.WriteAgrees | apps/desktop-recorder/src/recorder_controller.cpp:372-379 | after each write of a drain the writer has accepted on every track the samples of what was delivered, and counted as many frames |
| MockStt.StreamTranscription | libs/cpp/streaming-client/src/testing/mock_stt_server.cpp:66-149 | a session sends exactly the script's updates, one for each valid frame completing a group counted over all frames, until a write fails |
| MockStt.ValidFramesAreAnswered | libs/cpp/streaming-client/src/testing/mock_stt_server.cpp:66-96 | of sixteen-kilohertz mono integer frames every whole group gets one update, and none is counted invalid |
| MockStt.BuildStable | libs/cpp/streaming-client/src/testing/mock_stt_server.cpp:104-117 | the stable text is the segment's words so far, one more when final, with single spaces |
| MockStt.ScriptIsRegular | libs/cpp/streaming-client/src/testing/mock_stt_server.cpp:140-146 | the counters in closed form: update u is number u mod R of segment u div R |
| MockStt.RevisionsRunToFinal | libs/cpp/streaming-client/src/testing/mock_stt_server.cpp:99-146 | update u is revision u mod R + 1 of segment u div R, the last of R (of one, when none is configured) alone is final; the next update opens the next segment |
| MockStt.StableTextGrows | libs/cpp/streaming-client/src/testing/mock_stt_server.cpp:101-122 | each stable text is the one before joined with its mutable word, the final one has one word more, only it has nothing mutable, and a segment opens with nothing committed |
| MockStt.SegmentsAreContiguous | libs/cpp/streaming-client/src/testing/mock_stt_server.cpp:124-146 | an update covers a tenth of a second for each frame of its segment so far, and a segment starts where the one before ended, exactly when segments have a revision |
| MockStt.IdsAreDistinct | libs/cpp/streaming-client/src/testing/mock_stt_server.cpp:96-98 | the first n segments have ids of their own if and only if n is at most 10^11 |
| MockStt.IdReads | libs/cpp/streaming-client/src/testing/mock_stt_server.cpp:96-98 | an id is seg- and the number in at least four digits, most significant first |
| MockStt.IdCollides | libs/cpp/streaming-client/src/testing/mock_stt_server.cpp:96-98 | two segments with the same id |
| Transcript.TranscriptView.ApplyTranscript | apps/desktop-recorder/src/recorder_controller.cpp:538-560 | the segment's line is replaced where it stands, or appended when the segment is new |
| Transcript.TranscriptShowsNewest | apps/desktop-recorder/src/recorder_controller.cpp:538-560 | for any updates: one line for each segment in first-seen order, always the newest received: its stable text, and while there is more a space, the mutable text and an ellipsis |
| Transcript.SeenMeansUpdated | apps/desktop-recorder/src/recorder_controller.cpp:550-558 | the segments listed are exactly those some update named |
| Transcript.ScriptIsShown | apps/desktop-recorder/src/recorder_controller.cpp:538-560 | the transcript of a scripted session: finished segments in full, the open one as the words heard so far and an ellipsis |
| Transcript.SegmentOfThree | libs/cpp/streaming-client/src/testing/mock_stt_server.cpp:101-122 | with three updates a segment, each reads as the next three words of the script |
| Transcript.DefaultSegmentsRead | libs/cpp/streaming-client/src/testing/mock_stt_server.cpp:20-28 | with the server's own vocabulary and defaults, each segment reads as one of four sentences in turn, so that every fifth reads like the first |
| Transcript.SentIsScript | libs/cpp/streaming-client/src/testing/mock_stt_server.cpp:66-149 | what the server sent is the script so far |
| SemanticVersions.IsValidPrerelease | libs/cpp/core/src/version.cpp:24-45 | accepts exactly the nonempty texts of letters, digits, hyphens and dots that have no dot at either end or after another |
| SemanticVersions.ParseOfToString | libs/cpp/core/src/version.cpp:49-85 | parse undoes toString if and only if the fields fit 32 bits and the prerelease is empty or valid |
| SemanticVersions.ToStringOfParse | libs/cpp/core/src/version.cpp:49-85 | every accepted string prints back to itself |
| SemanticVersions.ParseAcceptsExactly | libs/cpp/core/src/version.cpp:49-85 | parse returns v for exactly the text that reads v: three 32-bit numbers in decimal with dots between them and, behind a dash, a valid prerelease if there is one |
| SemanticVersions.PrecedenceIsTotal | libs/cpp/core/src/version.cpp:87-103 | comparison is antisymmetric and total, and equal exactly on equal versions |
| SemanticVersions.PrecedenceIsTransitive | libs/cpp/core/src/version.cpp:87-103 | comparison is transitive |
| SemanticVersions.PrecedenceIsByFields | libs/cpp/core/src/version.cpp:87-103 | a version is below another by major, then minor, then patch number, then a prerelease below the release and prereleases by their first difference |

## Left out

- Machine integers: numbers are unbounded. `samples * 10^9` fits the code's 64 bits only up to 9,223,372,036 samples since an anchor (clock_sync.cpp:18), and counters, revisions and pts wrap far beyond that.
- Floating point: the drift estimate and the filter's sums are over real numbers; their rounding to doubles is not modelled.
- FIR coefficient design: the coefficients are given; frequency response is not stated. That factor 0 counts as 1 is modelled.
- A sample rate of zero: the synchronizer would divide by zero, so rates are positive.
- ClockSyncProofs.FramesFollowTheSampleClock: tells the sample clock from the outputs, so it assumes a channel for silence to be in; `CallsArePunctual` has no such assumption.
- ClockSyncProofs.SilenceIsWellPlaced: assumes at least one channel for the same reason.
- DriftProofs.DriftIsMeasured: assumes at least one channel for the same reason; `DriftEstimateIsBounded` does not.
- RingProtocol.RefinesQueue: acquire and release are modelled as views that may be old but never recede; a full weak-memory semantics is not.
- SttClient.SessionsAreOrderedAndCounted: start and stop are called by one owner at a time, as the recorder does; protobuf fields, channel setup, the reader thread and its counter are not modelled.
- SttClient.SttStreamClient.StopSession: the object's own stop and its writer's loop run with no other caller in between; the interleavings are in the step model.
- FFmpeg: an encoder is a log of what it was sent and a queue that may fail at each call; codec delay, packets, container bytes and FLAC itself are not modelled, and neither is a file already present at the final name.
- RecordingWriterProofs.FailureKeepsThePrefix: says what the encoder had taken, not how much of it the container had written when it was closed.
- RecordingWriter.Create: a partial file left by an open that fails after creating it is not modelled.
- ControllerProofs.StepKeeps: start, pause, resume and stop are steps of the thread model and not methods of a class; the drain loop, the objects it works on and the transcript are imperative.
- UploadedStream.UploadIsOneRun: one plan stands for the producer of every session; that it is made for the track selected at start is the caller's choice of plan.
- Uploading.RecorderIsDisciplined: a connection that fails leaves no client, and the client is destroyed after its stop.
- ControllerProofs.StoppedStreamsAreDrained: the ring is the queue it refines, and stopping a stream makes its last pushes visible to the UI thread, as joining a thread does.
- The recorder's destructor, device lists, file naming, messages and timers: user interface; a destroyed recorder leaves the partial file, which the writer's theorems cover.
- EndToEnd.SavedTrackIsGapless: is about one stream drained to a fresh writer; other tracks and pauses are in `SavedFileIsGapless`.
- SavedRecording.SavedFileIsGapless: is about streams without restarts; what restarts do to the length of a stream is in `RestartedTimeline`.
- Restarts.RestartedTimeline: a clock that jumps back is not covered; within the tolerance it is absorbed and beyond it an overlap, and `UnbrokenRunFollowsTime` bounds the length where there was none. Between a sample's length below the cap and the cap itself, rounding decides whether a gap is truncated.
- Restarts.UnbrokenRunFollowsTime: assumes at least one channel, because without one no silence is output.
- ControllerProgress.StopGetsThrough: takes the steps of the call and of the drain it waits for in turn; that the operating system lets them run, and hands a mutex over in the end, is not modelled. How the client's own stop ends is in `StopIsNeverStuck`.
- MockStt.StreamTranscription: a frames-per-update of zero would divide by zero and is excluded; tenant, confidence and production time are not modelled.
- Signal generator waveforms, the WASAPI backend, JSON configuration, the .NET control plane and the Python service: other components or foreign libraries.
