/** The recording writer: sample frames are queued per track, encoded in chunks of the
    encoder's size and stamped by what was sent before. FFmpeg is a queue and a log that may
    fail at any of its calls; where it fails is a parameter. */
module RecordingWriter {
  import opened Audio
  import opened Arithmetic

  datatype Error = InvalidConfig | OpenFailed | FormatMismatch | WriteFailed | FinalizeFailed | InvalidState

  datatype Lifecycle = Open | Failed | Finalized | Aborted

  /** The formats the writer takes: integer samples, at some rate, on one to eight channels. */
  predicate IsSane(format: TrackFormat) {
    format.format == PcmS16Le && format.sampleRate > 0 && 1 <= format.channels <= 8
  }

  /** What FFmpeg is never asked to record. */
  predicate IsOutOfRange(format: TrackFormat) {
    format.format == Float32Le || format.sampleRate == 0 || format.channels == 0 || format.channels > 8
  }

  /** One sample for every channel. */
  type SampleFrame = seq<Byte>

  /** A frame handed to the encoder. */
  datatype Chunk = Chunk(pts: nat, samples: seq<SampleFrame>)

  type ChunkSize = n: nat | n > 0 witness 4096

  const FALLBACK_CHUNK_SAMPLES: ChunkSize := 4096

  /** `log` is what the encoder has taken. */
  datatype Track = Track(chunkSamples: ChunkSize, fifo: seq<SampleFrame>, nextPts: nat, log: seq<Chunk>)

  /** Where a call into FFmpeg fails: before the chunk is read from the queue, when the
      encoder refuses it, or when its packets cannot be written. */
  datatype Stage = Reading | Sending | Delivering

  datatype Trouble = Smooth | Storing | Encoding(chunksBefore: nat, stage: Stage)
  {
    predicate Now(s: Stage) { this == Encoding(0, s) }

    function Later(): Trouble {
      if Encoding? && chunksBefore > 0 then Encoding(chunksBefore - 1, stage) else this
    }
  }

  datatype FinalTrouble = AllSmooth | InTrack(track: nat, trouble: Trouble) | InFlush(track: nat) | InTrailer | InRename
  {
    function At(i: nat): Trouble { if InTrack? && track == i then trouble else Smooth }
  }

  /** A payload cut into sample frames; trailing bytes that do not fill one are ignored. */
  function SampleFrames(payload: seq<Byte>, stride: nat): (r: seq<SampleFrame>)
    ensures |r| == WholeStrides(|payload|, stride)
    decreases |payload|
  {
    if stride == 0 || |payload| < stride then
      NoWholeStride(|payload|, stride);
      []
    else
      OneStrideLess(|payload|, stride);
      [payload[..stride]] + SampleFrames(payload[stride..], stride)
  }

  lemma NoWholeStride(bytes: nat, stride: nat)
    requires stride == 0 || bytes < stride
    ensures WholeStrides(bytes, stride) == 0
  {
    if stride > 0 {
      QuotientUnique(bytes, stride, 0);
    }
  }

  lemma OneStrideLess(bytes: nat, stride: nat)
    requires 0 < stride <= bytes
    ensures WholeStrides(bytes, stride) == WholeStrides(bytes - stride, stride) + 1
  {
    QuotientShift(bytes - stride, 1, stride);
  }

  function Samples(f: AudioFrame): (r: seq<SampleFrame>)
    ensures |r| == f.SampleCount()
  {
    SampleFrames(f.payload, f.Stride())
  }

  // ----- One operation as a function ----------------------------------------------------

  function NextChunk(t: Track, drainAll: bool): nat {
    if |t.fifo| >= t.chunkSamples then t.chunkSamples
    else if drainAll then |t.fifo|
    else 0
  }

  /** The front of the queue leaves it; its position is taken whether or not it arrives. */
  function ReadOff(t: Track, chunk: nat): Track
    requires chunk <= |t.fifo|
  {
    t.(fifo := t.fifo[chunk..], nextPts := t.nextPts + chunk)
  }

  function Sent(t: Track, chunk: nat): Track
    requires chunk <= |t.fifo|
  {
    ReadOff(t, chunk).(log := t.log + [Chunk(t.nextPts, t.fifo[..chunk])])
  }

  function Encoded(t: Track, drainAll: bool, trouble: Trouble): (Track, bool)
    decreases |t.fifo|
  {
    var chunk := NextChunk(t, drainAll);
    if chunk == 0 then (t, true)
    else if trouble.Now(Reading) then (t, false)
    else if trouble.Now(Sending) then (ReadOff(t, chunk), false)
    else if trouble.Now(Delivering) then (Sent(t, chunk), false)
    else Encoded(Sent(t, chunk), drainAll, trouble.Later())
  }

  /** What is on disk: the partial file, and the final one with what its tracks hold. */
  datatype Disk = Disk(partial: bool, final: Option<seq<seq<Chunk>>>)

  datatype State = State(
    lifecycle: Lifecycle,
    lastError: Error,
    tracks: seq<Track>,
    framesWritten: nat,
    samplesWritten: seq<nat>,
    disk: Disk)

  function FailedWith(s: State, error: Error): State {
    s.(lifecycle := Failed, lastError := error)
  }

  function Accepted(s: State, index: nat, samples: nat): State
    requires index < |s.samplesWritten|
  {
    s.(framesWritten := s.framesWritten + 1,
       samplesWritten := s.samplesWritten[index := s.samplesWritten[index] + samples])
  }

  function Stored(t: Track, f: AudioFrame): Track { t.(fifo := t.fifo + Samples(f)) }

  function Written(formats: seq<TrackFormat>, s: State, index: nat, f: AudioFrame, trouble: Trouble): (State, bool)
    requires |s.samplesWritten| == |formats| && |s.tracks| <= |formats|
  {
    if s.lifecycle != Open || index >= |s.tracks| then (s.(lastError := InvalidState), false)
    else if !formats[index].Fits(f) then (s.(lastError := FormatMismatch), false)
    else if Samples(f) == [] then (Accepted(s, index, 0), true)
    else if trouble == Storing then (FailedWith(s, WriteFailed), false)
    else
      var (t, ok) := Encoded(Stored(s.tracks[index], f), false, trouble);
      var s' := s.(tracks := s.tracks[index := t]);
      if ok then (Accepted(s', index, |Samples(f)|), true) else (FailedWith(s', WriteFailed), false)
  }

  /** The first n tracks drained and flushed, up to the first failure. */
  function Drained(tracks: seq<Track>, n: nat, trouble: FinalTrouble): (r: (seq<Track>, bool))
    requires n <= |tracks|
    ensures |r.0| == |tracks|
  {
    if n == 0 then (tracks, true)
    else
      var (before, ok) := Drained(tracks, n - 1, trouble);
      if !ok then (before, false)
      else
        var (t, fine) := Encoded(before[n - 1], true, trouble.At(n - 1));
        (before[n - 1 := t], fine && trouble != InFlush(n - 1))
  }

  function Logs(tracks: seq<Track>): (logs: seq<seq<Chunk>>)
    ensures |logs| == |tracks|
    ensures forall i :: 0 <= i < |tracks| ==> logs[i] == tracks[i].log
  {
    seq(|tracks|, i requires 0 <= i < |tracks| => tracks[i].log)
  }

  function Closed(s: State, trouble: FinalTrouble): (State, bool) {
    if s.lifecycle != Open then (s.(lastError := InvalidState), false)
    else
      var (tracks, ok) := Drained(s.tracks, |s.tracks|, trouble);
      var s' := s.(tracks := tracks);
      if !ok || trouble == InTrailer || trouble == InRename then (FailedWith(s', FinalizeFailed), false)
      else (s'.(lifecycle := Finalized, tracks := [], disk := Disk(false, Some(Logs(tracks)))), true)
  }

  function Discarded(s: State): State {
    if s.lifecycle == Open || s.lifecycle == Failed
    then s.(lifecycle := Aborted, tracks := [], disk := s.disk.(partial := false))
    else s.(tracks := [])
  }

  // ----- The writer object --------------------------------------------------------------

  datatype Config = Config(outputFile: string, tracks: seq<TrackFormat>)
  {
    predicate Sane() {
      outputFile != "" && tracks != [] && forall i :: 0 <= i < |tracks| ==> IsSane(tracks[i])
    }
  }

  datatype Container = Flac | Matroska

  function FreshTrack(frameSize: int): Track {
    Track(if frameSize > 0 then frameSize else FALLBACK_CHUNK_SAMPLES, [], 0, [])
  }

  /** A writer just opened; `frameSizes` is what each encoder asks for. */
  function Opened(frameSizes: seq<int>): State {
    State(Open, InvalidState, seq(|frameSizes|, i requires 0 <= i < |frameSizes| => FreshTrack(frameSizes[i])),
          0, seq(|frameSizes|, _ => 0), Disk(true, None))
  }

  /** A configuration that is not sane is refused before FFmpeg is asked. */
  method Create(config: Config, frameSizes: seq<int>, opens: bool) returns (writer: Writer?, error: Option<Error>)
    requires |frameSizes| == |config.tracks|
    ensures writer == null <==> error.Some?
    ensures error == Some(InvalidConfig) <==>
      || config.outputFile == "" || config.tracks == []
      || exists i :: 0 <= i < |config.tracks| && IsOutOfRange(config.tracks[i])
    ensures !config.Sane() ==> error == Some(InvalidConfig)
    ensures config.Sane() ==> error == if opens then None else Some(OpenFailed)
    ensures writer != null ==>
      && fresh(writer) && writer.Valid() && writer.formats == config.tracks && writer.View() == Opened(frameSizes)
      && (writer.container == Flac <==> |config.tracks| == 1)
  {
    if config.outputFile == "" || config.tracks == [] {
      return null, Some(InvalidConfig);
    }
    for i := 0 to |config.tracks|
      invariant forall k :: 0 <= k < i ==> IsSane(config.tracks[k])
    {
      var format := config.tracks[i];
      var integerPcm := format.format == PcmS16Le;
      var sane := format.sampleRate > 0 && format.channels >= 1 && format.channels <= 8;
      if !integerPcm || !sane {
        return null, Some(InvalidConfig);
      }
    }
    if !opens {
      return null, Some(OpenFailed);
    }
    writer := new Writer(config.tracks, frameSizes);
    error := None;
  }

  class Writer {
    const formats: seq<TrackFormat>
    const container: Container
    var tracks: seq<Track>
    var lifecycle: Lifecycle
    var lastError: Error
    var framesWritten: nat
    var samplesWritten: seq<nat>
    var disk: Disk

    ghost predicate Valid()
      reads this
    {
      |samplesWritten| == |formats| && |tracks| <= |formats|
    }

    ghost function View(): State
      reads this
    {
      State(lifecycle, lastError, tracks, framesWritten, samplesWritten, disk)
    }

    constructor (formats: seq<TrackFormat>, frameSizes: seq<int>)
      requires |frameSizes| == |formats|
      ensures Valid() && this.formats == formats && View() == Opened(frameSizes)
      ensures container == Flac <==> |formats| == 1
    {
      this.formats := formats;
      container := if |formats| == 1 then Flac else Matroska;
      tracks := seq(|frameSizes|, i requires 0 <= i < |frameSizes| => FreshTrack(frameSizes[i]));
      lifecycle, lastError, framesWritten := Open, InvalidState, 0;
      samplesWritten, disk := seq(|frameSizes|, _ => 0), Disk(true, None);
    }

    /** Encodes the queue in chunks of the encoder's size, and with drainAll what is left. */
    method EncodeBuffered(index: nat, drainAll: bool, trouble: Trouble) returns (ok: bool)
      requires index < |tracks|
      modifies this`tracks
      ensures tracks == old(tracks)[index := Encoded(old(tracks)[index], drainAll, trouble).0]
      ensures ok == Encoded(old(tracks)[index], drainAll, trouble).1
    {
      var ahead := trouble;
      ghost var goal := Encoded(tracks[index], drainAll, trouble);
      while true
        invariant |tracks| == |old(tracks)|
        invariant tracks == old(tracks)[index := tracks[index]]
        invariant Encoded(tracks[index], drainAll, ahead) == goal
        decreases |tracks[index].fifo|
      {
        var track := tracks[index];
        var available := |track.fifo|;
        var chunk := 0;
        if available >= track.chunkSamples {
          chunk := track.chunkSamples;
        } else if drainAll && available > 0 {
          chunk := available;
        } else {
          return true;
        }
        if ahead.Now(Reading) {
          return false;
        }
        var frame := Chunk(track.nextPts, track.fifo[..chunk]);
        track := track.(fifo := track.fifo[chunk..], nextPts := track.nextPts + chunk);
        tracks := tracks[index := track];
        if ahead.Now(Sending) {
          return false;
        }
        tracks := tracks[index := track.(log := track.log + [frame])];
        if ahead.Now(Delivering) {
          return false;
        }
        ahead := ahead.Later();
      }
    }

    method Fail(error: Error) returns (ok: bool)
      modifies this`lastError, this`lifecycle
      ensures View() == FailedWith(old(View()), error) && !ok
    {
      lastError := error;
      lifecycle := Failed;
      ok := false;
    }

    method Write(index: nat, frame: AudioFrame, trouble: Trouble) returns (ok: bool)
      requires Valid()
      modifies this
      ensures Valid() && (View(), ok) == Written(formats, old(View()), index, frame, trouble)
    {
      if lifecycle != Open || index >= |tracks| {
        lastError := InvalidState;
        return false;
      }
      if !formats[index].Fits(frame) {
        lastError := FormatMismatch;
        return false;
      }
      var samples := Samples(frame);
      if |samples| > 0 {
        if trouble == Storing {
          ok := Fail(WriteFailed);
          return;
        }
        tracks := tracks[index := tracks[index].(fifo := tracks[index].fifo + samples)];
        ok := EncodeBuffered(index, false, trouble);
        assert tracks == old(tracks)[index := Encoded(Stored(old(tracks)[index], frame), false, trouble).0];
        if !ok {
          ok := Fail(WriteFailed);
          return;
        }
      }
      framesWritten := framesWritten + 1;
      samplesWritten := samplesWritten[index := samplesWritten[index] + |samples|];
      ok := true;
    }

    method Finalize(trouble: FinalTrouble) returns (ok: bool)
      requires Valid()
      modifies this
      ensures Valid() && (View(), ok) == Closed(old(View()), trouble)
    {
      if lifecycle != Open {
        lastError := InvalidState;
        return false;
      }
      ok := true;
      for i := 0 to |tracks|
        invariant ok && Valid() && |tracks| == |old(tracks)|
        invariant View() == old(View()).(tracks := tracks)
        invariant Drained(old(tracks), i, trouble) == (tracks, true)
      {
        ok := EncodeBuffered(i, true, trouble.At(i));
        if !ok || trouble == InFlush(i) {
          StaysFailed(old(tracks), i + 1, |tracks|, trouble);
          ok := Fail(FinalizeFailed);
          return;
        }
      }
      if trouble == InTrailer || trouble == InRename {
        ok := Fail(FinalizeFailed);
        return;
      }
      disk := Disk(false, Some(Logs(tracks)));
      lifecycle := Finalized;
      tracks := [];
      ok := true;
    }

    method Abort()
      requires Valid()
      modifies this
      ensures Valid() && View() == Discarded(old(View()))
    {
      if lifecycle == Open || lifecycle == Failed {
        tracks := [];
        disk := disk.(partial := false);
        lifecycle := Aborted;
      }
      tracks := [];
    }
  }

  /** The first failure ends the draining. */
  lemma {:induction false} StaysFailed(tracks: seq<Track>, m: nat, n: nat, trouble: FinalTrouble)
    requires m <= n <= |tracks| && !Drained(tracks, m, trouble).1
    ensures Drained(tracks, n, trouble) == Drained(tracks, m, trouble)
  {
    if m == n {
    } else {
      StaysFailed(tracks, m, n - 1, trouble);
    }
  }
}
