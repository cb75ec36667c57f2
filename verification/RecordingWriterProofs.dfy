/** What a recording holds: for any sequence of operations, each track is the written signal
    cut into chunks of one size, however the writes were sized and wherever FFmpeg failed. */
module RecordingWriterProofs {
  import opened Audio
  import opened RecordingWriter
  import opened Sequences

  // ----- A payload is its sample frames -------------------------------------------------

  function Bytes(samples: seq<SampleFrame>): seq<Byte> {
    if samples == [] then [] else samples[0] + Bytes(samples[1..])
  }

  /** Whole sample frames of the payload, in order; only bytes that fill none are left. */
  lemma {:induction false} SampleFramesAreThePayload(payload: seq<Byte>, stride: nat)
    requires stride > 0
    ensures var samples := SampleFrames(payload, stride);
      && (forall k :: 0 <= k < |samples| ==> |samples[k]| == stride)
      && Bytes(samples) <= payload
      && |payload| - |Bytes(samples)| < stride
    decreases |payload|
  {
    if |payload| < stride {
    } else {
      var rest := SampleFrames(payload[stride..], stride);
      SampleFramesAreThePayload(payload[stride..], stride);
      assert ([payload[..stride]] + rest)[1..] == rest;
      assert payload[..stride] + payload[stride..] == payload;
    }
  }

  // ----- The reference: one signal cut at once ------------------------------------------

  datatype Cutting = Cutting(chunks: seq<Chunk>, rest: seq<SampleFrame>)

  function Cut(signal: seq<SampleFrame>, size: ChunkSize, pts: nat): Cutting
    decreases |signal|
  {
    if |signal| < size then Cutting([], signal)
    else
      var tail := Cut(signal[size..], size, pts + size);
      Cutting([Chunk(pts, signal[..size])] + tail.chunks, tail.rest)
  }

  /** All of a signal, the last chunk possibly short. */
  function CutAll(signal: seq<SampleFrame>, size: ChunkSize, pts: nat): seq<Chunk>
    decreases |signal|
  {
    if signal == [] then []
    else if |signal| < size then [Chunk(pts, signal)]
    else [Chunk(pts, signal[..size])] + CutAll(signal[size..], size, pts + size)
  }

  function Joined(chunks: seq<Chunk>): seq<SampleFrame> {
    if chunks == [] then [] else chunks[0].samples + Joined(chunks[1..])
  }

  lemma JoinedPrepend(first: Chunk, rest: seq<Chunk>)
    ensures Joined([first] + rest) == first.samples + Joined(rest)
  {
    assert ([first] + rest)[1..] == rest;
  }

  lemma {:induction false} JoinedConcat(a: seq<Chunk>, b: seq<Chunk>)
    ensures Joined(a + b) == Joined(a) + Joined(b)
  {
    if a == [] {
      assert a + b == b;
    } else {
      JoinedConcat(a[1..], b);
      JoinedPrepend(a[0], a[1..] + b);
      assert a + b == [a[0]] + (a[1..] + b);
      Associate(a[0].samples, Joined(a[1..]), Joined(b));
    }
  }

  predicate AllFull(chunks: seq<Chunk>, size: nat) {
    forall k :: 0 <= k < |chunks| ==> |chunks[k].samples| == size
  }

  predicate Conserves(c: Cutting, signal: seq<SampleFrame>, size: nat) {
    Joined(c.chunks) + c.rest == signal && |c.rest| < size && AllFull(c.chunks, size)
  }

  lemma CutStep(first: Chunk, tail: Cutting, signal: seq<SampleFrame>, size: nat)
    requires Conserves(tail, signal, size) && |first.samples| == size
    ensures Conserves(Cutting([first] + tail.chunks, tail.rest), first.samples + signal, size)
  {
    JoinedPrepend(first, tail.chunks);
    Associate(first.samples, Joined(tail.chunks), tail.rest);
  }

  lemma CutUnfolds(signal: seq<SampleFrame>, size: ChunkSize, pts: nat)
    requires |signal| >= size
    ensures var tail := Cut(signal[size..], size, pts + size);
      Cut(signal, size, pts) == Cutting([Chunk(pts, signal[..size])] + tail.chunks, tail.rest)
    ensures signal[..size] + signal[size..] == signal
  {
  }

  /** Nothing is lost, every chunk is full, and what is left does not fill one. */
  lemma {:induction false} CutConserves(signal: seq<SampleFrame>, size: ChunkSize, pts: nat)
    ensures Conserves(Cut(signal, size, pts), signal, size)
    decreases |signal|
  {
    if |signal| >= size {
      CutConserves(signal[size..], size, pts + size);
      CutUnfolds(signal, size, pts);
      CutStep(Chunk(pts, signal[..size]), Cut(signal[size..], size, pts + size), signal[size..], size);
    } else {
      assert [] + signal == signal;
    }
  }

  /** Each chunk is stamped with the number of samples in the chunks before it. */
  predicate Stamped(chunks: seq<Chunk>, pts: nat) {
    forall k :: 0 <= k < |chunks| ==> chunks[k].pts == pts + |Joined(chunks[..k])|
  }

  lemma StampedPrepend(first: Chunk, rest: seq<Chunk>)
    requires Stamped(rest, first.pts + |first.samples|)
    ensures Stamped([first] + rest, first.pts)
  {
    var all := [first] + rest;
    forall k | 0 <= k < |all| ensures all[k].pts == first.pts + |Joined(all[..k])| {
      if k > 0 {
        assert all[..k] == [first] + rest[..k - 1];
        assert ([first] + rest[..k - 1])[1..] == rest[..k - 1];
      }
    }
  }

  /** Every chunk is full but the last, which holds something. */
  predicate FullButLast(chunks: seq<Chunk>, size: nat) {
    chunks != [] ==>
      AllFull(chunks[..|chunks| - 1], size) && 0 < |chunks[|chunks| - 1].samples| <= size
  }

  lemma FullButLastPrepend(first: Chunk, rest: seq<Chunk>, size: nat)
    requires FullButLast(rest, size) && (if rest == [] then 0 < |first.samples| <= size else |first.samples| == size)
    ensures FullButLast([first] + rest, size)
  {
    if rest != [] {
      assert ([first] + rest)[..|rest|] == [first] + rest[..|rest| - 1];
    }
  }

  predicate HoldsAll(chunks: seq<Chunk>, signal: seq<SampleFrame>, size: nat, pts: nat) {
    Joined(chunks) == signal && Stamped(chunks, pts) && FullButLast(chunks, size)
  }

  lemma CutAllStep(first: Chunk, rest: seq<Chunk>, signal: seq<SampleFrame>, size: nat)
    requires HoldsAll(rest, signal, size, first.pts + |first.samples|)
    requires if rest == [] then 0 < |first.samples| <= size else |first.samples| == size
    ensures HoldsAll([first] + rest, first.samples + signal, size, first.pts)
  {
    JoinedPrepend(first, rest);
    StampedPrepend(first, rest);
    FullButLastPrepend(first, rest, size);
  }

  /** The whole cut, unfolded once. */
  lemma CutAllUnfolds(signal: seq<SampleFrame>, size: ChunkSize, pts: nat)
    requires signal != []
    ensures CutAll(signal, size, pts)
         == if |signal| < size then [Chunk(pts, signal)] + []
            else [Chunk(pts, signal[..size])] + CutAll(signal[size..], size, pts + size)
    ensures |signal| >= size ==> signal[..size] + signal[size..] == signal
  {
  }

  lemma {:induction false} CutAllConserves(signal: seq<SampleFrame>, size: ChunkSize, pts: nat)
    ensures HoldsAll(CutAll(signal, size, pts), signal, size, pts)
    decreases |signal|
  {
    if signal == [] {
    } else {
      CutAllUnfolds(signal, size, pts);
      if |signal| < size {
        CutAllStep(Chunk(pts, signal), [], [], size);
        ConcatEmpty(signal);
      } else {
        var rest := CutAll(signal[size..], size, pts + size);
        CutAllConserves(signal[size..], size, pts + size);
        CutAllStep(Chunk(pts, signal[..size]), rest, signal[size..], size);
      }
    }
  }

  /** The whole cut is the full chunks and at most one short one. */
  lemma {:induction false} CutAllIsCutAndRest(signal: seq<SampleFrame>, size: ChunkSize, pts: nat)
    ensures var c := Cut(signal, size, pts);
      && |c.rest| <= |signal|
      && CutAll(signal, size, pts)
         == c.chunks + if c.rest == [] then [] else [Chunk(pts + |signal| - |c.rest|, c.rest)]
    decreases |signal|
  {
    if |signal| < size {
    } else {
      CutUnfolds(signal, size, pts);
      CutAllIsCutAndRest(signal[size..], size, pts + size);
    }
  }

  /** One cut, then another of what it left together with more. */
  function CutAgain(first: Cutting, length: nat, more: seq<SampleFrame>, size: ChunkSize, pts: nat): Cutting
    requires |first.rest| <= length
  {
    var next := Cut(first.rest + more, size, pts + length - |first.rest|);
    Cutting(first.chunks + next.chunks, next.rest)
  }

  lemma CutAgainStep(chunk: Chunk, tail: Cutting, length: nat, more: seq<SampleFrame>, size: ChunkSize, pts: nat)
    requires |tail.rest| <= length
    ensures CutAgain(Cutting([chunk] + tail.chunks, tail.rest), length + size, more, size, pts)
         == var again := CutAgain(tail, length, more, size, pts + size); Cutting([chunk] + again.chunks, again.rest)
  {
  }

  /** Cutting what was left over together with more is cutting it all. */
  lemma {:induction false} CutAppend(a: seq<SampleFrame>, b: seq<SampleFrame>, size: ChunkSize, pts: nat)
    ensures |Cut(a, size, pts).rest| <= |a|
    ensures Cut(a + b, size, pts) == CutAgain(Cut(a, size, pts), |a|, b, size, pts)
    decreases |a|
  {
    if |a| < size {
      assert [] + Cut(a + b, size, pts).chunks == Cut(a + b, size, pts).chunks;
    } else {
      var chunk, tail := Chunk(pts, a[..size]), Cut(a[size..], size, pts + size);
      CutAppend(a[size..], b, size, pts + size);
      CutUnfolds(a, size, pts);
      CutUnfolds(a + b, size, pts);
      assert (a + b)[size..] == a[size..] + b;
      assert (a + b)[..size] == a[..size];
      CutAgainStep(chunk, tail, |a| - size, b, size, pts);
    }
  }

  // ----- Encoding is cutting ------------------------------------------------------------

  /** What encoding the queue adds to the log when nothing fails. */
  function Due(t: Track, drainAll: bool): seq<Chunk> {
    if drainAll then CutAll(t.fifo, t.chunkSamples, t.nextPts) else Cut(t.fifo, t.chunkSamples, t.nextPts).chunks
  }

  predicate EncodesDue(t: Track, drainAll: bool, t': Track, ok: bool) {
    && t'.chunkSamples == t.chunkSamples
    && t.log <= t'.log <= t.log + Due(t, drainAll)
    && (ok ==>
          && t'.log == t.log + Due(t, drainAll)
          && t'.fifo == (if drainAll then [] else Cut(t.fifo, t.chunkSamples, t.nextPts).rest)
          && t'.nextPts == t.nextPts + |t.fifo| - |t'.fifo|)
  }

  lemma DueUnfolds(t: Track, drainAll: bool)
    requires NextChunk(t, drainAll) > 0
    ensures var chunk := NextChunk(t, drainAll);
      Due(t, drainAll) == [Chunk(t.nextPts, t.fifo[..chunk])] + Due(Sent(t, chunk), drainAll)
  {
    if |t.fifo| < t.chunkSamples {
      assert t.fifo[..|t.fifo|] == t.fifo;
    }
  }

  lemma StepEncodes(t: Track, drainAll: bool, t': Track, ok: bool)
    requires NextChunk(t, drainAll) > 0
    requires EncodesDue(Sent(t, NextChunk(t, drainAll)), drainAll, t', ok)
    ensures EncodesDue(t, drainAll, t', ok)
  {
    var chunk := NextChunk(t, drainAll);
    var sent, first := Sent(t, chunk), [Chunk(t.nextPts, t.fifo[..chunk])];
    DueUnfolds(t, drainAll);
    Associate(t.log, first, Due(sent, drainAll));
    PrefixOfPrefix(t.log, sent.log, t'.log);
  }

  lemma {:induction false} EncodedCuts(t: Track, drainAll: bool, trouble: Trouble)
    ensures var r := Encoded(t, drainAll, trouble); EncodesDue(t, drainAll, r.0, r.1)
    decreases |t.fifo|
  {
    var chunk := NextChunk(t, drainAll);
    if chunk == 0 {
      assert t.log + [] == t.log;
    } else {
      DueUnfolds(t, drainAll);
      if !trouble.Now(Reading) && !trouble.Now(Sending) && !trouble.Now(Delivering) {
        EncodedCuts(Sent(t, chunk), drainAll, trouble.Later());
        var r := Encoded(Sent(t, chunk), drainAll, trouble.Later());
        StepEncodes(t, drainAll, r.0, r.1);
      }
    }
  }

  // ----- Runs ---------------------------------------------------------------------------

  datatype Op = Write(index: nat, frame: AudioFrame, trouble: Trouble) | Finalize(final: FinalTrouble) | Abort

  predicate Shaped(formats: seq<TrackFormat>, s: State) {
    |s.samplesWritten| == |formats| && |s.tracks| <= |formats|
  }

  function Applied(formats: seq<TrackFormat>, s: State, op: Op): (r: (State, bool))
    requires Shaped(formats, s)
    ensures Shaped(formats, r.0)
  {
    match op
    case Write(index, frame, trouble) => Written(formats, s, index, frame, trouble)
    case Finalize(trouble) => Closed(s, trouble)
    case Abort => (Discarded(s), true)
  }

  function Run(formats: seq<TrackFormat>, frameSizes: seq<int>, ops: seq<Op>): (s: State)
    requires |frameSizes| == |formats|
    ensures Shaped(formats, s)
    decreases |ops|, 1
  {
    if ops == [] then Opened(frameSizes) else LastApplied(formats, frameSizes, ops).0
  }

  function LastApplied(formats: seq<TrackFormat>, frameSizes: seq<int>, ops: seq<Op>): (r: (State, bool))
    requires |frameSizes| == |formats| && ops != []
    ensures Shaped(formats, r.0)
    decreases |ops|, 0
  {
    Applied(formats, Run(formats, frameSizes, ops[..|ops| - 1]), ops[|ops| - 1])
  }

  /** What write accepted on a track, in order. */
  function AcceptedOn(formats: seq<TrackFormat>, frameSizes: seq<int>, ops: seq<Op>, i: nat): seq<SampleFrame>
    requires |frameSizes| == |formats|
  {
    if ops == [] then [] else
      var last := ops[|ops| - 1];
      AcceptedOn(formats, frameSizes, ops[..|ops| - 1], i)
      + if last.Write? && last.index == i && LastApplied(formats, frameSizes, ops).1 then Samples(last.frame) else []
  }

  function Init(ops: seq<Op>): seq<Op>
    requires ops != []
  {
    ops[..|ops| - 1]
  }

  /** Accepted samples, and those of a write that failed while it was being stored. */
  function OfferedOn(formats: seq<TrackFormat>, frameSizes: seq<int>, ops: seq<Op>, i: nat): seq<SampleFrame>
    requires |frameSizes| == |formats|
  {
    if ops == [] then [] else
      var last := ops[|ops| - 1];
      OfferedOn(formats, frameSizes, Init(ops), i)
      + if last.Write? && last.index == i && Run(formats, frameSizes, Init(ops)).lifecycle == Open
           && (LastApplied(formats, frameSizes, ops).1 || Run(formats, frameSizes, ops).lifecycle == Failed)
        then Samples(last.frame) else []
  }

  /** The chunk size of a track, from what its encoder asked for. */
  function SizeOf(frameSizes: seq<int>, i: nat): ChunkSize
    requires i < |frameSizes|
  {
    if frameSizes[i] > 0 then frameSizes[i] else 4096
  }

  /** An open track: the accepted signal cut so far, the rest still queued. */
  predicate Streaming(t: Track, size: ChunkSize, accepted: seq<SampleFrame>) {
    var c := Cut(accepted, size, 0);
    && t.chunkSamples == size
    && t.log == c.chunks
    && t.fifo == c.rest
    && t.nextPts + |c.rest| == |accepted|
  }

  /** A track of a writer that failed: no chunk it already had is lost, and none is made up. */
  predicate Interrupted(t: Track, size: ChunkSize, accepted: seq<SampleFrame>, offered: seq<SampleFrame>) {
    Cut(accepted, size, 0).chunks <= t.log <= CutAll(offered, size, 0)
  }

  /** The files follow the writer's state. */
  predicate FilesInv(s: State, tracks: nat) {
    && (s.lifecycle == Open || s.lifecycle == Failed <==> s.disk.partial)
    && (s.lifecycle == Finalized <==> s.disk.final.Some?)
    && (s.disk.final.Some? ==> |s.disk.final.value| == tracks)
    && |s.tracks| == if s.disk.partial then tracks else 0
  }

  predicate TrackInv(s: State, i: nat, size: ChunkSize, accepted: seq<SampleFrame>, offered: seq<SampleFrame>)
    requires i < |s.samplesWritten| && FilesInv(s, |s.samplesWritten|)
  {
    && s.samplesWritten[i] == |accepted|
    && accepted <= offered
    && match s.lifecycle
       case Open => offered == accepted && Streaming(s.tracks[i], size, accepted)
       case Failed => Interrupted(s.tracks[i], size, accepted, offered)
       case Finalized => s.disk.final.value[i] == CutAll(accepted, size, 0)
       case Aborted => true
  }

  /** Full chunks of a signal are the first chunks of any longer one. */
  lemma FullChunksStay(a: seq<SampleFrame>, b: seq<SampleFrame>, size: ChunkSize)
    ensures Cut(a, size, 0).chunks <= Cut(a + b, size, 0).chunks <= CutAll(a + b, size, 0)
  {
    CutAppend(a, b, size, 0);
    CutAllIsCutAndRest(a + b, size, 0);
  }

  /** A write on an open track extends its cutting, or stops part way into it. */
  lemma WriteKeepsTrack(t: Track, size: ChunkSize, accepted: seq<SampleFrame>, f: AudioFrame, trouble: Trouble)
    requires Streaming(t, size, accepted)
    ensures var (t', ok) := Encoded(Stored(t, f), false, trouble);
      var offered := accepted + Samples(f);
      if ok then Streaming(t', size, offered) else Interrupted(t', size, accepted, offered)
  {
    var stored := Stored(t, f);
    var (t', ok) := Encoded(stored, false, trouble);
    var c, offered := Cut(accepted, size, 0), accepted + Samples(f);
    EncodedCuts(stored, false, trouble);
    CutAppend(accepted, Samples(f), size, 0);
    assert stored.fifo == c.rest + Samples(f);
    assert t.log + Due(stored, false) == Cut(offered, size, 0).chunks;
    if !ok {
      FullChunksStay(offered, [], size);
      assert offered + [] == offered;
      PrefixOfPrefix(t'.log, t.log + Due(stored, false), CutAll(offered, size, 0));
    }
  }

  lemma FreshWriterInv(formats: seq<TrackFormat>, frameSizes: seq<int>, i: nat)
    requires i < |frameSizes| == |formats|
    ensures var s := Opened(frameSizes); FilesInv(s, |formats|) && TrackInv(s, i, SizeOf(frameSizes, i), [], [])
  {
  }

  lemma WriteKeeps(formats: seq<TrackFormat>, s: State, i: nat, size: ChunkSize, accepted: seq<SampleFrame>,
                   offered: seq<SampleFrame>, index: nat, f: AudioFrame, trouble: Trouble)
    requires Shaped(formats, s) && i < |formats| && FilesInv(s, |formats|) && TrackInv(s, i, size, accepted, offered)
    ensures var (s', ok) := Written(formats, s, index, f, trouble);
      var tried := index == i && s.lifecycle == Open && (ok || s'.lifecycle == Failed);
      && FilesInv(s', |formats|)
      && TrackInv(s', i, size, accepted + (if index == i && ok then Samples(f) else []),
                  offered + (if tried then Samples(f) else []))
  {
    ConcatEmpty(accepted);
    ConcatEmpty(offered);
    if s.lifecycle == Open {
      FullChunksStay(accepted, [], size);
      FullChunksStay(accepted, Samples(f), size);
      WriteKeepsTrack(s.tracks[i], size, accepted, f, trouble);
    }
  }

  /** Draining works on each track once and leaves the later ones alone. */
  lemma {:induction false} DrainedTrack(tracks: seq<Track>, n: nat, trouble: FinalTrouble, i: nat)
    requires n <= |tracks| && i < |tracks|
    ensures var (after, ok) := Drained(tracks, n, trouble);
      var (t, fine) := Encoded(tracks[i], true, trouble.At(i));
      && (after[i] == tracks[i] || after[i] == t)
      && (i >= n ==> after[i] == tracks[i])
      && (i < n && ok ==> fine && after[i] == t)
  {
    if n == 0 {
    } else {
      DrainedTrack(tracks, n - 1, trouble, i);
    }
  }

  /** A track drained at the end: the whole cut of what was accepted, or a first part of it. */
  lemma TrackDrains(t: Track, size: ChunkSize, accepted: seq<SampleFrame>, trouble: Trouble)
    requires Streaming(t, size, accepted)
    ensures var (t', ok) := Encoded(t, true, trouble);
      && t.log <= t'.log <= CutAll(accepted, size, 0)
      && (ok ==> t'.log == CutAll(accepted, size, 0))
  {
    EncodedCuts(t, true, trouble);
    CutAllIsCutAndRest(accepted, size, 0);
    CutConserves(accepted, size, 0);
    assert t.log + Due(t, true) == CutAll(accepted, size, 0);
  }

  lemma FinalizeKeeps(formats: seq<TrackFormat>, s: State, i: nat, size: ChunkSize, accepted: seq<SampleFrame>,
                      offered: seq<SampleFrame>, trouble: FinalTrouble)
    requires Shaped(formats, s) && i < |formats| && FilesInv(s, |formats|) && TrackInv(s, i, size, accepted, offered)
    ensures var s' := Closed(s, trouble).0; FilesInv(s', |formats|) && TrackInv(s', i, size, accepted, offered)
  {
    if s.lifecycle == Open {
      DrainedTrack(s.tracks, |s.tracks|, trouble, i);
      TrackDrains(s.tracks[i], size, accepted, trouble.At(i));
      FullChunksStay(accepted, [], size);
      ConcatEmpty(accepted);
    }
  }

  lemma ApplyKeeps(formats: seq<TrackFormat>, s: State, i: nat, size: ChunkSize, accepted: seq<SampleFrame>,
                   offered: seq<SampleFrame>, op: Op)
    requires Shaped(formats, s) && i < |formats| && FilesInv(s, |formats|) && TrackInv(s, i, size, accepted, offered)
    ensures var (s', ok) := Applied(formats, s, op);
      var here := op.Write? && op.index == i;
      && FilesInv(s', |formats|)
      && TrackInv(s', i, size, accepted + (if here && ok then Samples(op.frame) else []),
                  offered + (if here && s.lifecycle == Open && (ok || s'.lifecycle == Failed)
                             then Samples(op.frame) else []))
  {
    ConcatEmpty(accepted);
    ConcatEmpty(offered);
    match op
    case Write(index, frame, trouble) => WriteKeeps(formats, s, i, size, accepted, offered, index, frame, trouble);
    case Finalize(trouble) => FinalizeKeeps(formats, s, i, size, accepted, offered, trouble);
    case Abort =>
  }

  lemma {:induction false} RunKeeps(formats: seq<TrackFormat>, frameSizes: seq<int>, ops: seq<Op>, i: nat)
    requires i < |frameSizes| == |formats|
    ensures var s := Run(formats, frameSizes, ops);
      && FilesInv(s, |formats|)
      && TrackInv(s, i, SizeOf(frameSizes, i), AcceptedOn(formats, frameSizes, ops, i),
                  OfferedOn(formats, frameSizes, ops, i))
  {
    if ops == [] {
      FreshWriterInv(formats, frameSizes, i);
    } else {
      RunKeeps(formats, frameSizes, Init(ops), i);
      ApplyKeeps(formats, Run(formats, frameSizes, Init(ops)), i, SizeOf(frameSizes, i),
                 AcceptedOn(formats, frameSizes, Init(ops), i), OfferedOn(formats, frameSizes, Init(ops), i),
                 ops[|ops| - 1]);
    }
  }

  // ----- Main results -------------------------------------------------------------------

  /** While the writer is open: chunks and queue are exactly the accepted samples, every chunk
      is full and stamped by the chunks before it, and less than a chunk waits. */
  lemma OpenTrackConserves(formats: seq<TrackFormat>, frameSizes: seq<int>, ops: seq<Op>, i: nat)
    requires i < |frameSizes| == |formats| && Run(formats, frameSizes, ops).lifecycle == Open
    ensures var s := Run(formats, frameSizes, ops);
      var accepted, size := AcceptedOn(formats, frameSizes, ops, i), SizeOf(frameSizes, i);
      && |s.tracks| == |formats|
      && Joined(s.tracks[i].log) + s.tracks[i].fifo == accepted
      && AllFull(s.tracks[i].log, size)
      && Stamped(s.tracks[i].log, 0)
      && |s.tracks[i].fifo| < size
      && s.samplesWritten[i] == |accepted|
  {
    RunKeeps(formats, frameSizes, ops, i);
    var accepted, size := AcceptedOn(formats, frameSizes, ops, i), SizeOf(frameSizes, i);
    CutConserves(accepted, size, 0);
    CutIsStamped(accepted, size);
  }

  lemma StampedPrefix(all: seq<Chunk>, n: nat, pts: nat)
    requires n <= |all| && Stamped(all, pts)
    ensures Stamped(all[..n], pts)
  {
    forall k | 0 <= k < n ensures all[..n][k].pts == pts + |Joined(all[..n][..k])| {
      assert all[..n][..k] == all[..k];
    }
  }

  lemma CutIsStamped(signal: seq<SampleFrame>, size: ChunkSize)
    ensures Stamped(Cut(signal, size, 0).chunks, 0)
  {
    var chunks, all := Cut(signal, size, 0).chunks, CutAll(signal, size, 0);
    CutAllIsCutAndRest(signal, size, 0);
    CutAllConserves(signal, size, 0);
    StampedPrefix(all, |chunks|, 0);
    assert all[..|chunks|] == chunks;
  }

  /** A finalized file holds every accepted sample once, in order: full chunks, then at most
      one short one, with as many samples as the statistics say. */
  lemma FinalizedFileIsComplete(formats: seq<TrackFormat>, frameSizes: seq<int>, ops: seq<Op>, i: nat)
    requires i < |frameSizes| == |formats| && Run(formats, frameSizes, ops).lifecycle == Finalized
    ensures var s := Run(formats, frameSizes, ops);
      var size := SizeOf(frameSizes, i);
      && s.disk.final.Some? && |s.disk.final.value| == |formats|
      && var chunks := s.disk.final.value[i];
         && Joined(chunks) == AcceptedOn(formats, frameSizes, ops, i)
         && |Joined(chunks)| == s.samplesWritten[i]
         && Stamped(chunks, 0)
         && FullButLast(chunks, size)
  {
    RunKeeps(formats, frameSizes, ops, i);
    CutAllConserves(AcceptedOn(formats, frameSizes, ops, i), SizeOf(frameSizes, i), 0);
  }

  /** After a failure every full chunk of accepted audio had reached the encoder, nothing that
      was not written did, and both are in place: the partial file is kept. */
  lemma FailureKeepsThePrefix(
      formats: seq<TrackFormat>, frameSizes: seq<int>, ops: seq<Op>, i: nat)
    requires i < |frameSizes| == |formats| && Run(formats, frameSizes, ops).lifecycle == Failed
    ensures var s := Run(formats, frameSizes, ops);
      var accepted, offered := AcceptedOn(formats, frameSizes, ops, i), OfferedOn(formats, frameSizes, ops, i);
      var size := SizeOf(frameSizes, i);
      && s.disk == Disk(true, None)
      && |s.tracks| == |formats|
      && accepted <= offered
      && Joined(s.tracks[i].log) <= offered
      && |accepted| < |Joined(s.tracks[i].log)| + size
      && s.samplesWritten[i] == |accepted|
  {
    RunKeeps(formats, frameSizes, ops, i);
    var s := Run(formats, frameSizes, ops);
    var accepted, offered := AcceptedOn(formats, frameSizes, ops, i), OfferedOn(formats, frameSizes, ops, i);
    var size := SizeOf(frameSizes, i);
    var full, log, all := Cut(accepted, size, 0).chunks, s.tracks[i].log, CutAll(offered, size, 0);
    CutConserves(accepted, size, 0);
    CutAllConserves(offered, size, 0);
    JoinedPrefix(full, log);
    JoinedPrefix(log, all);
  }

  lemma JoinedPrefix(a: seq<Chunk>, b: seq<Chunk>)
    requires a <= b
    ensures Joined(a) <= Joined(b)
  {
    assert b == a + b[|a|..];
    JoinedConcat(a, b[|a|..]);
  }

  /** Two ways of sizing the writes of the same samples give the same open track. */
  lemma WriteSizesAreInvisible(formats: seq<TrackFormat>, frameSizes: seq<int>, one: seq<Op>, two: seq<Op>, i: nat)
    requires i < |frameSizes| == |formats|
    requires Run(formats, frameSizes, one).lifecycle == Run(formats, frameSizes, two).lifecycle == Open
    requires AcceptedOn(formats, frameSizes, one, i) == AcceptedOn(formats, frameSizes, two, i)
    ensures |Run(formats, frameSizes, one).tracks| == |Run(formats, frameSizes, two).tracks| == |formats|
    ensures Run(formats, frameSizes, one).tracks[i] == Run(formats, frameSizes, two).tracks[i]
  {
    RunKeeps(formats, frameSizes, one, i);
    RunKeeps(formats, frameSizes, two, i);
  }

  /** The partial file lives from opening until it is renamed or deliberately removed, and the
      final name appears only through a finalize that returned true. */
  lemma FilesFollowTheLifecycle(formats: seq<TrackFormat>, frameSizes: seq<int>, ops: seq<Op>)
    requires |frameSizes| == |formats| > 0
    ensures FilesInv(Run(formats, frameSizes, ops), |formats|)
    ensures ops != [] ==>
      var before, last := Run(formats, frameSizes, Init(ops)), ops[|ops| - 1];
      var (after, ok) := LastApplied(formats, frameSizes, ops);
      && (before.disk.partial && !after.disk.partial ==> last == Abort || (last.Finalize? && ok))
      && (before.disk.final.None? && after.disk.final.Some? ==> last.Finalize? && ok)
      && (before.disk.final.Some? ==> after.disk == before.disk)
      && (last.Finalize? && ok ==> before.lifecycle == Open && after.disk.final.Some? && !after.disk.partial)
  {
    RunKeeps(formats, frameSizes, ops, 0);
    if ops != [] {
      RunKeeps(formats, frameSizes, Init(ops), 0);
    }
  }

  /** A call the writer refuses before it touches anything: it is not open, has no such track, or
      the frame is not of the track's format. */
  predicate IsRefused(formats: seq<TrackFormat>, s: State, index: nat, f: AudioFrame)
    requires Shaped(formats, s)
  {
    || s.lifecycle != Open || index >= |s.tracks|
    || f.format != formats[index].format || f.sampleRate != formats[index].sampleRate
    || f.channels != formats[index].channels
  }

  /** A refused or failed write counts nothing; a format mismatch or a call in the wrong state
      changes the error alone, and only a failure inside FFmpeg ends the recording. */
  lemma RefusalsAreHarmless(
      formats: seq<TrackFormat>, s: State, index: nat, f: AudioFrame, trouble: Trouble)
    requires Shaped(formats, s)
    ensures var (s', ok) := Written(formats, s, index, f, trouble);
      var refused := IsRefused(formats, s, index, f);
      && (!ok ==> s'.framesWritten == s.framesWritten && s'.samplesWritten == s.samplesWritten && s'.disk == s.disk)
      && (refused ==> !ok && s' == s.(lastError := s'.lastError))
      && (refused ==>
            s'.lastError == if s.lifecycle != Open || index >= |s.tracks| then InvalidState else FormatMismatch)
      && (!ok && !refused <==> s.lifecycle == Open && s'.lifecycle == Failed)
      && (!ok && !refused ==> s'.lastError == WriteFailed)
      && (ok ==> s'.lifecycle == Open && s'.framesWritten == s.framesWritten + 1
                 && s'.samplesWritten == s.samplesWritten[index := s.samplesWritten[index] + f.SampleCount()])
  {
  }

  /** FFmpeg fails while this many chunks are encoded. */
  predicate Strikes(trouble: Trouble, chunks: nat) { trouble.Encoding? && trouble.chunksBefore < chunks }

  lemma {:induction false} EncodingFailsExactlyWhenStruck(t: Track, drainAll: bool, trouble: Trouble)
    ensures Encoded(t, drainAll, trouble).1 <==> !Strikes(trouble, |Due(t, drainAll)|)
    decreases |t.fifo|
  {
    var chunk := NextChunk(t, drainAll);
    if chunk == 0 {
    } else {
      DueUnfolds(t, drainAll);
      var rest := Due(Sent(t, chunk), drainAll);
      assert |Due(t, drainAll)| == 1 + |rest|;
      if trouble == Smooth || trouble == Storing {
        EncodingFailsExactlyWhenStruck(Sent(t, chunk), drainAll, trouble.Later());
      } else if trouble.chunksBefore > 0 {
        EncodingFailsExactlyWhenStruck(Sent(t, chunk), drainAll, trouble.Later());
        assert Strikes(trouble, 1 + |rest|) <==> Strikes(trouble.Later(), |rest|);
      } else {
        assert trouble.stage == Reading || trouble.stage == Sending || trouble.stage == Delivering;
      }
    }
  }

  /** A write succeeds exactly when it is not refused and FFmpeg does not fail: neither in storing
      the samples, when there are any, nor in the chunks they complete. */
  lemma WriteSucceedsExactly(
      formats: seq<TrackFormat>, s: State, index: nat, f: AudioFrame, trouble: Trouble)
    requires Shaped(formats, s)
    ensures Written(formats, s, index, f, trouble).1 <==>
      && !IsRefused(formats, s, index, f)
      && (f.SampleCount() > 0 ==>
            && trouble != Storing
            && !Strikes(trouble, |Cut(s.tracks[index].fifo + Samples(f), s.tracks[index].chunkSamples,
                                      s.tracks[index].nextPts).chunks|))
  {
    if !IsRefused(formats, s, index, f) {
      EncodingFailsExactlyWhenStruck(Stored(s.tracks[index], f), false, trouble);
    }
  }

  /** FFmpeg fails on this track while the file is finalized. */
  predicate StrikesTrack(trouble: FinalTrouble, i: nat, t: Track) {
    || trouble == InFlush(i)
    || (trouble.InTrack? && trouble.track == i && Strikes(trouble.trouble, |Due(t, true)|))
  }

  lemma {:induction false} DrainingFailsExactlyWhenStruck(tracks: seq<Track>, n: nat, trouble: FinalTrouble)
    requires n <= |tracks|
    ensures var (drained, ok) := Drained(tracks, n, trouble);
      && (ok <==> forall i :: 0 <= i < n ==> !StrikesTrack(trouble, i, tracks[i]))
      && forall i :: n <= i < |tracks| ==> drained[i] == tracks[i]
  {
    if n == 0 {
    } else {
      DrainingFailsExactlyWhenStruck(tracks, n - 1, trouble);
      EncodingFailsExactlyWhenStruck(tracks[n - 1], true, trouble.At(n - 1));
    }
  }

  /** Finalizing succeeds exactly when the writer is open and FFmpeg fails on none of its tracks, nor
      at the trailer or the rename; otherwise the error says which it was, and a writer that was
      open has failed. */
  lemma FinalizeSucceedsExactly(s: State, trouble: FinalTrouble)
    ensures var (s', ok) := Closed(s, trouble);
      && (ok <==>
            && s.lifecycle == Open && trouble != InTrailer && trouble != InRename
            && forall i :: 0 <= i < |s.tracks| ==> !StrikesTrack(trouble, i, s.tracks[i]))
      && (ok ==> s'.lifecycle == Finalized)
      && (!ok ==> s'.lifecycle == if s.lifecycle == Open then Failed else s.lifecycle)
      && (!ok ==> s'.lastError == if s.lifecycle == Open then FinalizeFailed else InvalidState)
  {
    DrainingFailsExactlyWhenStruck(s.tracks, |s.tracks|, trouble);
  }

  /** Finalized and aborted writers stay so, and a failed one can only be aborted. */
  lemma TerminalStatesStay(formats: seq<TrackFormat>, s: State, op: Op)
    requires Shaped(formats, s) && s.lifecycle != Open
    ensures var (s', ok) := Applied(formats, s, op);
      && (s'.lifecycle == s.lifecycle || (s.lifecycle == Failed && op == Abort && s'.lifecycle == Aborted))
      && (op != Abort ==> !ok && s' == s.(lastError := InvalidState))
      && (s.lifecycle != Failed ==> s'.disk == s.disk)
  {
  }

  // ----- How long a refusal lasts -------------------------------------------------------

  /** The interface promises that a writer which failed a write refuses every later one. */
  ghost predicate RefusesFromNowOn(formats: seq<TrackFormat>, frameSizes: seq<int>, ops: seq<Op>)
    requires |frameSizes| == |formats|
  {
    forall more: seq<Op>, last: Op :: last.Write? ==> !Answer(formats, frameSizes, ops, more, last)
  }

  /** What the last operation returns, other operations having come in between. */
  function Answer(formats: seq<TrackFormat>, frameSizes: seq<int>, ops: seq<Op>, more: seq<Op>, last: Op): bool
    requires |frameSizes| == |formats|
  {
    LastApplied(formats, frameSizes, ops + more + [last]).1
  }

  /** The track exists and the frame is of its format. */
  predicate IsWellDirected(formats: seq<TrackFormat>, op: Op)
    requires op.Write?
  {
    && op.index < |formats|
    && op.frame.format == formats[op.index].format && op.frame.sampleRate == formats[op.index].sampleRate
    && op.frame.channels == formats[op.index].channels
  }

  lemma RunOneMore(formats: seq<TrackFormat>, frameSizes: seq<int>, ops: seq<Op>, op: Op)
    requires |frameSizes| == |formats|
    ensures LastApplied(formats, frameSizes, ops + [op]) == Applied(formats, Run(formats, frameSizes, ops), op)
    ensures Run(formats, frameSizes, ops + [op]) == Applied(formats, Run(formats, frameSizes, ops), op).0
  {
    assert (ops + [op])[..|ops|] == ops;
  }

  lemma {:induction false} StaysClosed(formats: seq<TrackFormat>, frameSizes: seq<int>, ops: seq<Op>, more: seq<Op>)
    requires |frameSizes| == |formats| && Run(formats, frameSizes, ops).lifecycle != Open
    ensures Run(formats, frameSizes, ops + more).lifecycle != Open
  {
    if more == [] {
      assert ops + more == ops;
    } else {
      var init, last := more[..|more| - 1], more[|more| - 1];
      StaysClosed(formats, frameSizes, ops, init);
      TerminalStatesStay(formats, Run(formats, frameSizes, ops + init), last);
      RunOneMore(formats, frameSizes, ops + init, last);
      assert ops + more == ops + init + [last];
    }
  }

  /** An empty frame of a track's own format, which an open writer accepts. */
  function FittingFrame(format: TrackFormat): AudioFrame {
    AudioFrame(Microphone, 0, 0, format.sampleRate, format.channels, format.format, false, [])
  }

  lemma FittingFrameIsAccepted(formats: seq<TrackFormat>, frameSizes: seq<int>, ops: seq<Op>)
    requires |frameSizes| == |formats| > 0 && Run(formats, frameSizes, ops).lifecycle == Open
    ensures Answer(formats, frameSizes, ops, [], Write(0, FittingFrame(formats[0]), Smooth))
  {
    RunKeeps(formats, frameSizes, ops, 0);
    assert ops + [] == ops;
    RunOneMore(formats, frameSizes, ops, Write(0, FittingFrame(formats[0]), Smooth));
  }

  lemma ClosedWriterRefuses(formats: seq<TrackFormat>, frameSizes: seq<int>, ops: seq<Op>)
    requires |frameSizes| == |formats| && Run(formats, frameSizes, ops).lifecycle != Open
    ensures RefusesFromNowOn(formats, frameSizes, ops)
  {
    forall more: seq<Op>, last: Op | last.Write? ensures !Answer(formats, frameSizes, ops, more, last) {
      StaysClosed(formats, frameSizes, ops, more);
      RunOneMore(formats, frameSizes, ops + more, last);
    }
  }

  /** Exactly when the promise is kept: after a write that failed on an open writer every later
      write is refused if and only if the failed one named a track of the writer and carried
      that track's format. */
  lemma RefusalLastsExactlyAfterFailure(formats: seq<TrackFormat>, frameSizes: seq<int>, ops: seq<Op>, failed: Op)
    requires |frameSizes| == |formats| > 0 && failed.Write? && Run(formats, frameSizes, ops).lifecycle == Open
    requires !LastApplied(formats, frameSizes, ops + [failed]).1
    ensures RefusesFromNowOn(formats, frameSizes, ops + [failed]) <==> IsWellDirected(formats, failed)
  {
    var s := Run(formats, frameSizes, ops);
    RunKeeps(formats, frameSizes, ops, 0);
    RunOneMore(formats, frameSizes, ops, failed);
    RefusalsAreHarmless(formats, s, failed.index, failed.frame, failed.trouble);
    if IsWellDirected(formats, failed) {
      ClosedWriterRefuses(formats, frameSizes, ops + [failed]);
    } else {
      FittingFrameIsAccepted(formats, frameSizes, ops + [failed]);
    }
  }

  /** An input on which the promise is broken: a stereo frame written to a mono track is
      refused, and the mono frame after it is accepted. */
  lemma MismatchDoesNotEndTheRecording()
    ensures var formats := [TrackFormat(48000, 1, PcmS16Le)];
      var stereo := Write(0, AudioFrame(Microphone, 0, 0, 48000, 2, PcmS16Le, false, [0, 0, 0, 0]), Smooth);
      var mono := Write(0, AudioFrame(Microphone, 1, 0, 48000, 1, PcmS16Le, false, [0, 0]), Smooth);
      && !LastApplied(formats, [4096], [stereo]).1
      && LastApplied(formats, [4096], [stereo, mono]).1
      && Run(formats, [4096], [stereo, mono]).samplesWritten == [1]
  {
    var formats := [TrackFormat(48000, 1, PcmS16Le)];
    var stereo := Write(0, AudioFrame(Microphone, 0, 0, 48000, 2, PcmS16Le, false, [0, 0, 0, 0]), Smooth);
    var mono := Write(0, AudioFrame(Microphone, 1, 0, 48000, 1, PcmS16Le, false, [0, 0]), Smooth);
    RunOneMore(formats, [4096], [], stereo);
    assert [] + [stereo] == [stereo];
    RunOneMore(formats, [4096], [stereo], mono);
    assert [stereo] + [mono] == [stereo, mono];
    var s := Run(formats, [4096], [stereo]);
    assert s == Opened([4096]).(lastError := FormatMismatch);
    OneFrameIsAccepted(formats, s, mono.frame);
  }

  lemma OneFrameIsAccepted(formats: seq<TrackFormat>, s: State, f: AudioFrame)
    requires Shaped(formats, s) && s.lifecycle == Open && |s.tracks| > 0 && formats[0].Fits(f)
    requires s.tracks[0].fifo == [] && f.SampleCount() == 1 && s.tracks[0].chunkSamples > 1
    ensures Written(formats, s, 0, f, Smooth).1
    ensures Written(formats, s, 0, f, Smooth).0.samplesWritten
         == s.samplesWritten[0 := s.samplesWritten[0] + 1]
  {
    assert |Stored(s.tracks[0], f).fifo| == 1;
  }
}
