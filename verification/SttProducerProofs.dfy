/** What the transcription stream holds over whole runs: independent of how the audio was cut
    into frames, fully accounted, and stamped and flagged as promised. */
module SttProducerProofs {
  import opened Audio
  import opened Arithmetic
  import opened FirDecimation
  import opened Sequences
  import opened SttProducer

  // ----- Runs ---------------------------------------------------------------------------

  datatype Result = Result(state: State, outputs: seq<AudioFrame>)

  /** A fresh producer fed these frames. */
  function Run(p: Plan, frames: seq<AudioFrame>): Result
    decreases |frames|, 1
  {
    if frames == [] then Result(INIT, [])
    else Result(LastStep(p, frames).0, Run(p, Earlier(frames)).outputs + LastStep(p, frames).1)
  }

  function LastStep(p: Plan, frames: seq<AudioFrame>): (State, seq<AudioFrame>)
    requires frames != []
    decreases |frames|, 0
  {
    Step(p, Run(p, Earlier(frames)).state, Final(frames))
  }

  // ----- Reference: the stretches of audio -----------------------------------------------

  /** The stretch still going on. */
  function Current(stretches: seq<seq<Sample>>): seq<Sample> {
    if stretches == [] then [] else stretches[|stretches| - 1]
  }

  /** More audio joins the current stretch; the first, and what is discontinuous, begins one. */
  function Extended(stretches: seq<seq<Sample>>, mono: seq<Sample>, discontinuous: bool): (after: seq<seq<Sample>>)
    ensures after != []
  {
    if discontinuous || stretches == [] then stretches + [mono]
    else stretches[|stretches| - 1 := Current(stretches) + mono]
  }

  /** The accepted audio, downmixed and joined, cut only at accepted discontinuous frames. */
  function Stretches(p: Plan, frames: seq<AudioFrame>): (stretches: seq<seq<Sample>>) {
    if frames == [] then []
    else
      var before := Stretches(p, Earlier(frames));
      var f := Final(frames);
      if Accepts(p, f) then Extended(before, Mono(p.input.channels, f.payload), f.discontinuity) else before
  }

  /** Each stretch through a fresh filter, joined. */
  function DecimatedAll(p: Plan, stretches: seq<seq<Sample>>): seq<Sample> {
    if stretches == [] then []
    else DecimatedAll(p, stretches[..|stretches| - 1])
         + Decimated(p.coefficients, p.factor, stretches[|stretches| - 1])
  }

  /** The samples the output frames carry, in order. */
  function Samples(outputs: seq<AudioFrame>): seq<Sample> {
    if outputs == [] then [] else Samples(Earlier(outputs)) + Decode(Final(outputs).payload)
  }

  lemma {:induction false} SamplesConcat(a: seq<AudioFrame>, b: seq<AudioFrame>)
    ensures Samples(a + b) == Samples(a) + Samples(b)
  {
    if b == [] {
      assert a + b == a;
    } else {
      SamplesConcat(a, Earlier(b));
      assert Earlier(a + b) == a + Earlier(b) && Final(a + b) == Final(b);
      Associate(Samples(a), Samples(Earlier(b)), Decode(Final(b).payload));
    }
  }

  lemma SamplesPrepend(f: AudioFrame, rest: seq<AudioFrame>)
    ensures Samples([f] + rest) == Decode(f.payload) + Samples(rest)
  {
    SamplesConcat([f], rest);
    assert Earlier([f]) == [];
  }

  // ----- Reframing ----------------------------------------------------------------------

  predicate Conserved(p: Plan, s: State, s': State, out: seq<AudioFrame>) {
    && Samples(out) + s'.pending == s.pending
    && |s'.pending| < p.frameSamples
    && s'.stretch == s.stretch && s'.anchor == s.anchor
  }

  lemma OutputConserves(p: Plan, s: State, s': State, rest: seq<AudioFrame>)
    requires s.anchor.Some? && |s.pending| >= p.frameSamples && Conserved(p, AfterOutput(p, s), s', rest)
    ensures Conserved(p, s, s', [NextOutput(p, s)] + rest)
  {
    var cut := s.pending[..p.frameSamples];
    SamplesPrepend(NextOutput(p, s), rest);
    EncodeRoundTrip(cut);
    Associate(cut, Samples(rest), s'.pending);
    assert cut + s.pending[p.frameSamples..] == s.pending;
  }

  /** Reframing moves samples from the pending buffer into frames and loses none. */
  lemma {:induction false} DrainConserves(p: Plan, s: State)
    requires s.anchor.Some?
    ensures var (s', out) := Drained(p, s); Conserved(p, s, s', out)
    decreases |s.pending|
  {
    if |s.pending| < p.frameSamples {
    } else {
      var (s', rest) := Drained(p, AfterOutput(p, s));
      DrainConserves(p, AfterOutput(p, s));
      OutputConserves(p, s, s', rest);
    }
  }

  /** The whole nanoseconds that so many samples last at the output rate. */
  predicate IsElapsed(p: Plan, time: int, samples: nat) {
    time * p.rate <= samples * 1_000_000_000 < time * p.rate + p.rate
  }

  lemma TimestampElapses(p: Plan, anchor: int, samples: nat)
    ensures IsElapsed(p, Timestamp(p, anchor, samples) - anchor, samples)
  {
    QuotientBounds(samples * 1_000_000_000, p.rate);
  }

  /** Output k of a run: numbered k, stamped by the samples emitted before it, whole. */
  predicate WellStamped(p: Plan, anchor: int, f: AudioFrame, k: nat) {
    && f.track == SttStream && f.sequence == k
    && IsElapsed(p, f.timestamp - anchor, k * p.frameSamples)
    && f.sampleRate == p.rate && f.channels == 1 && f.format == PcmS16Le
    && |f.payload| == 2 * p.frameSamples
  }

  predicate Numbered(p: Plan, s: State) {
    s.samplesEmitted == s.nextSequence * p.frameSamples && s.framesOut == s.nextSequence
  }

  lemma NextIsWellStamped(p: Plan, s: State)
    requires s.anchor.Some? && |s.pending| >= p.frameSamples && Numbered(p, s)
    ensures WellStamped(p, s.anchor.value, NextOutput(p, s), s.nextSequence)
    ensures Numbered(p, AfterOutput(p, s))
  {
    TimestampElapses(p, s.anchor.value, s.samplesEmitted);
    assert (s.nextSequence + 1) * p.frameSamples == s.nextSequence * p.frameSamples + p.frameSamples;
  }

  lemma {:induction false} DrainStamps(p: Plan, s: State)
    requires s.anchor.Some? && Numbered(p, s)
    ensures var (s', out) := Drained(p, s);
      && Numbered(p, s') && s'.nextSequence == s.nextSequence + |out|
      && forall k :: 0 <= k < |out| ==> WellStamped(p, s.anchor.value, out[k], s.nextSequence + k)
    decreases |s.pending|
  {
    if |s.pending| < p.frameSamples {
    } else {
      NextIsWellStamped(p, s);
      DrainStamps(p, AfterOutput(p, s));
    }
  }

  /** Only the first frame cut can carry the flag, and cutting one clears it. */
  lemma {:induction false} DrainFlags(p: Plan, s: State)
    requires s.anchor.Some?
    ensures var (s', out) := Drained(p, s);
      && s'.pendingDiscontinuity == (s.pendingDiscontinuity && out == [])
      && forall k :: 0 <= k < |out| ==> out[k].discontinuity == (s.pendingDiscontinuity && k == 0)
    decreases |s.pending|
  {
    if |s.pending| < p.frameSamples {
    } else {
      DrainFlags(p, AfterOutput(p, s));
    }
  }

  // ----- The payload theorem ------------------------------------------------------------

  predicate Reframed(p: Plan, r: Result, stretches: seq<seq<Sample>>) {
    && r.state.stretch == Current(stretches)
    && Samples(r.outputs) + r.state.pending == DecimatedAll(p, stretches)
    && |r.state.pending| < p.frameSamples
  }

  lemma NewStretch(p: Plan, stretches: seq<seq<Sample>>, mono: seq<Sample>)
    ensures DecimatedAll(p, stretches + [mono]) == DecimatedAll(p, stretches) + Added(p, [], mono)
  {
    assert (stretches + [mono])[..|stretches|] == stretches;
    assert [] + mono == mono;
  }

  lemma DecimatedAllExtends(p: Plan, stretches: seq<seq<Sample>>, mono: seq<Sample>, discontinuous: bool)
    ensures var heard := if discontinuous then [] else Current(stretches);
      DecimatedAll(p, Extended(stretches, mono, discontinuous))
        == DecimatedAll(p, stretches) + Added(p, heard, mono)
  {
    if discontinuous || stretches == [] {
      NewStretch(p, stretches, mono);
    } else {
      var last := |stretches| - 1;
      var init := DecimatedAll(p, stretches[..last]);
      var after := Extended(stretches, mono, discontinuous);
      assert after[..last] == stretches[..last];
      var old_ := Decimated(p.coefficients, p.factor, stretches[last]);
      var new_ := Decimated(p.coefficients, p.factor, after[last]);
      DecimatedGrows(p.coefficients, p.factor, stretches[last], mono);
      assert new_ == old_ + new_[|old_|..];
      Associate(init, old_, new_[|old_|..]);
    }
  }

  lemma AbsorbFollowsStretches(p: Plan, s: State, f: AudioFrame, before: seq<seq<Sample>>, heard: seq<Sample>)
    requires s.stretch == Current(before)
    requires heard + s.pending == DecimatedAll(p, before)
    ensures var after := Extended(before, Mono(p.input.channels, f.payload), f.discontinuity);
      && Absorbed(p, s, f).stretch == Current(after)
      && heard + Absorbed(p, s, f).pending == DecimatedAll(p, after)
  {
    var mono := Mono(p.input.channels, f.payload);
    DecimatedAllExtends(p, before, mono, f.discontinuity);
    Associate(heard, s.pending, Added(p, if f.discontinuity then [] else s.stretch, mono));
    assert [] + mono == mono;
  }

  lemma StepReframes(p: Plan, r: Result, f: AudioFrame, before: seq<seq<Sample>>)
    requires Reframed(p, r, before) && Accepts(p, f)
    ensures var (s', out) := Step(p, r.state, f);
      Reframed(p, Result(s', r.outputs + out), Extended(before, Mono(p.input.channels, f.payload), f.discontinuity))
  {
    AbsorbFollowsStretches(p, r.state, f, before, Samples(r.outputs));
    var s := Absorbed(p, r.state, f);
    DrainConserves(p, s);
    var (s', out) := Drained(p, s);
    SamplesConcat(r.outputs, out);
    Associate(Samples(r.outputs), Samples(out), s'.pending);
  }

  /** Over every run, the emitted samples followed by the pending ones are the fresh-filter
      decimation of every stretch; rejected frames contribute nothing. */
  lemma {:induction false} PayloadIsDecimatedStretches(p: Plan, frames: seq<AudioFrame>)
    ensures Reframed(p, Run(p, frames), Stretches(p, frames))
  {
    if frames == [] {
    } else {
      PayloadIsDecimatedStretches(p, Earlier(frames));
      var r, f := Run(p, Earlier(frames)), Final(frames);
      if Accepts(p, f) {
        StepReframes(p, r, f, Stretches(p, Earlier(frames)));
      } else {
        assert r.outputs + [] == r.outputs;
      }
    }
  }

  // ----- Stamps -------------------------------------------------------------------------

  /** The timestamp of the first frame of the configured format. */
  function FirstAccepted(p: Plan, frames: seq<AudioFrame>): Option<int> {
    if frames == [] then None
    else
      var earlier := FirstAccepted(p, Earlier(frames));
      if earlier.None? && Accepts(p, Final(frames)) then Some(Final(frames).timestamp) else earlier
  }

  predicate Stamped(p: Plan, anchor: Option<int>, outputs: seq<AudioFrame>) {
    outputs != [] ==> anchor.Some? && forall k :: 0 <= k < |outputs| ==> WellStamped(p, anchor.value, outputs[k], k)
  }

  predicate StampedSoFar(p: Plan, r: Result) {
    Numbered(p, r.state) && r.state.nextSequence == |r.outputs| && Stamped(p, r.state.anchor, r.outputs)
  }

  /** More outputs, stamped from where the earlier ones stop. */
  lemma StampsAppend(p: Plan, anchor: int, outputs: seq<AudioFrame>, more: seq<AudioFrame>)
    requires Stamped(p, Some(anchor), outputs)
    requires forall k :: 0 <= k < |more| ==> WellStamped(p, anchor, more[k], |outputs| + k)
    ensures Stamped(p, Some(anchor), outputs + more)
  {
  }

  lemma DrainKeepsStamps(p: Plan, s: State, outputs: seq<AudioFrame>)
    requires s.anchor.Some? && StampedSoFar(p, Result(s, outputs))
    ensures var (s', out) := Drained(p, s);
      s'.anchor == s.anchor && StampedSoFar(p, Result(s', outputs + out))
  {
    var (s', out) := Drained(p, s);
    DrainStamps(p, s);
    DrainConserves(p, s);
    StampsAppend(p, s.anchor.value, outputs, out);
  }

  lemma StepStamps(p: Plan, r: Result, f: AudioFrame)
    requires StampedSoFar(p, r) && Accepts(p, f)
    ensures var (s', out) := Step(p, r.state, f);
      && s'.anchor == (if r.state.anchor.Some? then r.state.anchor else Some(f.timestamp))
      && StampedSoFar(p, Result(s', r.outputs + out))
  {
    DrainKeepsStamps(p, Absorbed(p, r.state, f), r.outputs);
  }

  /** Output k of every run has sequence k, the timestamp of the first accepted frame plus
      the exact length of k frames, and exactly one frame's samples. */
  lemma {:induction false} OutputsAreStamped(p: Plan, frames: seq<AudioFrame>)
    ensures Run(p, frames).state.anchor == FirstAccepted(p, frames)
    ensures StampedSoFar(p, Run(p, frames))
  {
    if frames == [] {
    } else {
      OutputsAreStamped(p, Earlier(frames));
      var r, f := Run(p, Earlier(frames)), Final(frames);
      if Accepts(p, f) {
        StepStamps(p, r, f);
      } else {
        assert r.outputs + [] == r.outputs;
      }
    }
  }

  lemma {:induction false} SamplesLength(p: Plan, outputs: seq<AudioFrame>)
    requires forall k :: 0 <= k < |outputs| ==> |outputs[k].payload| == 2 * p.frameSamples
    ensures |Samples(outputs)| == |outputs| * p.frameSamples
  {
    if outputs == [] {
    } else {
      SamplesLength(p, Earlier(outputs));
      assert |outputs| * p.frameSamples == (|outputs| - 1) * p.frameSamples + p.frameSamples;
    }
  }

  lemma RunSamplesLength(p: Plan, frames: seq<AudioFrame>)
    ensures var r := Run(p, frames);
      |Samples(r.outputs)| == |r.outputs| * p.frameSamples == r.state.samplesEmitted
  {
    OutputsAreStamped(p, frames);
    SamplesLength(p, Run(p, frames).outputs);
  }

  // ----- Independence of chunking ---------------------------------------------------------

  /** However the same audio is cut into frames, the same samples are emitted and pending. */
  lemma ChunkingIsInvisible(p: Plan, one: seq<AudioFrame>, two: seq<AudioFrame>)
    requires Stretches(p, one) == Stretches(p, two)
    ensures var r, r' := Run(p, one), Run(p, two);
      && Samples(r.outputs) == Samples(r'.outputs)
      && |r.outputs| == |r'.outputs|
      && r.state.pending == r'.state.pending
  {
    var r, r' := Run(p, one), Run(p, two);
    PayloadIsDecimatedStretches(p, one);
    PayloadIsDecimatedStretches(p, two);
    RunSamplesLength(p, one);
    RunSamplesLength(p, two);
    var n, m := |r.outputs|, |r'.outputs|;
    CancelFactor(n, m, p.frameSamples);
    CancelFactor(m, n, p.frameSamples);
    SplitsAlike(Samples(r.outputs), r.state.pending, Samples(r'.outputs), r'.state.pending);
  }

  lemma SplitsAlike(a: seq<Sample>, b: seq<Sample>, c: seq<Sample>, d: seq<Sample>)
    requires a + b == c + d && |a| == |c|
    ensures a == c && b == d
  {
    assert a == (a + b)[..|a|] && c == (c + d)[..|c|];
    assert b == (a + b)[|a|..] && d == (c + d)[|c|..];
  }

  // ----- Accounting -----------------------------------------------------------------------

  /** Mono samples of all accepted frames. */
  function SamplesIn(p: Plan, frames: seq<AudioFrame>): nat {
    if frames == [] then 0
    else SamplesIn(p, Earlier(frames))
         + if Accepts(p, Final(frames)) then |Mono(p.input.channels, Final(frames).payload)| else 0
  }

  function Lengths(stretches: seq<seq<Sample>>): nat {
    if stretches == [] then 0
    else Lengths(stretches[..|stretches| - 1]) + |stretches[|stretches| - 1]|
  }

  lemma ExtendedLengths(stretches: seq<seq<Sample>>, mono: seq<Sample>, discontinuous: bool)
    ensures Lengths(Extended(stretches, mono, discontinuous)) == Lengths(stretches) + |mono|
  {
    if discontinuous || stretches == [] {
      assert (stretches + [mono])[..|stretches|] == stretches;
    } else {
      var last := |stretches| - 1;
      assert Extended(stretches, mono, false)[..last] == stretches[..last];
    }
  }

  lemma {:induction false} StretchesHoldSamplesIn(p: Plan, frames: seq<AudioFrame>)
    ensures Lengths(Stretches(p, frames)) == SamplesIn(p, frames)
  {
    if frames == [] {
    } else {
      StretchesHoldSamplesIn(p, Earlier(frames));
      ExtendedLengths(Stretches(p, Earlier(frames)), Mono(p.input.channels, Final(frames).payload),
                      Final(frames).discontinuity);
    }
  }

  lemma {:induction false} DecimatedAllLength(p: Plan, stretches: seq<seq<Sample>>)
    ensures var d := |DecimatedAll(p, stretches)|;
      Lengths(stretches) <= d * p.factor <= Lengths(stretches) + |stretches| * (p.factor - 1)
  {
    if stretches == [] {
    } else {
      var init, last := stretches[..|stretches| - 1], stretches[|stretches| - 1];
      DecimatedAllLength(p, init);
      DecimationIsConvolution(p.coefficients, p.factor, last);
      CeilDivBounds(|last|, p.factor);
      LengthsAdd(|DecimatedAll(p, init)|, CeilDiv(|last|, p.factor), p.factor, |init|);
    }
  }

  lemma LengthsAdd(d: nat, c: nat, factor: int, count: nat)
    ensures (d + c) * factor == d * factor + c * factor
    ensures (count + 1) * (factor - 1) == count * (factor - 1) + (factor - 1)
  {
  }

  /** Every accepted sample is behind an output or pending one: decimation rounds up once per
      stretch and nothing else is gained or lost. */
  lemma SamplesAreAccounted(p: Plan, frames: seq<AudioFrame>)
    ensures var r, stretches := Run(p, frames), |Stretches(p, frames)|;
      var decimated := r.state.samplesEmitted + |r.state.pending|;
      SamplesIn(p, frames) <= decimated * p.factor <= SamplesIn(p, frames) + stretches * (p.factor - 1)
  {
    PayloadIsDecimatedStretches(p, frames);
    RunSamplesLength(p, frames);
    StretchesHoldSamplesIn(p, frames);
    DecimatedAllLength(p, Stretches(p, frames));
  }

  // ----- Flags ----------------------------------------------------------------------------

  /** The index of the input whose call emitted output k. */
  function EmittedBy(p: Plan, frames: seq<AudioFrame>, k: nat): (i: nat)
    requires k < |Run(p, frames).outputs|
    ensures i < |frames|
  {
    if k < |Run(p, Earlier(frames)).outputs| then EmittedBy(p, Earlier(frames), k) else |frames| - 1
  }

  /** Some accepted frame from index `from` on, before `to`, was discontinuous. */
  predicate Broken(p: Plan, frames: seq<AudioFrame>, from: nat, to: nat)
    requires to <= |frames|
  {
    exists j :: from <= j < to && Accepts(p, frames[j]) && frames[j].discontinuity
  }

  /** The first input after the one that completed output k - 1. */
  function SinceOutput(p: Plan, frames: seq<AudioFrame>, k: nat): (i: nat)
    requires k <= |Run(p, frames).outputs|
    ensures i <= |frames|
  {
    if k == 0 then 0 else EmittedBy(p, frames, k - 1) + 1
  }

  predicate FlagIsExact(p: Plan, frames: seq<AudioFrame>, k: nat)
    requires k < |Run(p, frames).outputs|
  {
    Run(p, frames).outputs[k].discontinuity <==>
      Broken(p, frames, SinceOutput(p, frames, k), EmittedBy(p, frames, k) + 1)
  }

  lemma BrokenGrows(p: Plan, frames: seq<AudioFrame>, from: nat)
    requires frames != [] && from < |frames|
    ensures Broken(p, frames, from, |frames|)
        <==> Broken(p, Earlier(frames), from, |frames| - 1)
             || (Accepts(p, Final(frames)) && Final(frames).discontinuity)
  {
    if Broken(p, Earlier(frames), from, |frames| - 1) {
      var j :| from <= j < |frames| - 1 && Accepts(p, Earlier(frames)[j]) && Earlier(frames)[j].discontinuity;
      assert frames[j] == Earlier(frames)[j];
    }
    if Broken(p, frames, from, |frames|) {
      var j :| from <= j < |frames| && Accepts(p, frames[j]) && frames[j].discontinuity;
      assert j < |frames| - 1 ==> Earlier(frames)[j] == frames[j];
    }
  }

  lemma BrokenPrefix(p: Plan, frames: seq<AudioFrame>, from: nat, to: nat)
    requires frames != [] && to < |frames|
    ensures Broken(p, frames, from, to) <==> Broken(p, Earlier(frames), from, to)
  {
    assert forall j :: 0 <= j < to ==> frames[j] == Earlier(frames)[j];
  }

  predicate PendingIsExact(p: Plan, frames: seq<AudioFrame>) {
    var r := Run(p, frames);
    r.state.pendingDiscontinuity <==> Broken(p, frames, SinceOutput(p, frames, |r.outputs|), |frames|)
  }

  lemma SinceUnchanged(p: Plan, frames: seq<AudioFrame>, k: nat)
    requires frames != [] && k <= |Run(p, Earlier(frames)).outputs|
    ensures SinceOutput(p, frames, k) == SinceOutput(p, Earlier(frames), k)
  {
  }

  lemma OldFlagStaysExact(p: Plan, frames: seq<AudioFrame>, k: nat)
    requires frames != [] && k < |Run(p, Earlier(frames)).outputs| && FlagIsExact(p, Earlier(frames), k)
    ensures FlagIsExact(p, frames, k)
  {
    SinceUnchanged(p, frames, k);
    BrokenPrefix(p, frames, SinceOutput(p, frames, k), EmittedBy(p, frames, k) + 1);
  }

  /** What one call does to the flags, given what was pending. */
  lemma StepFlags(p: Plan, s: State, f: AudioFrame)
    ensures var (s', out) := Step(p, s, f);
      var due := s.pendingDiscontinuity || (Accepts(p, f) && f.discontinuity);
      && s'.pendingDiscontinuity == (due && out == [])
      && forall k :: 0 <= k < |out| ==> out[k].discontinuity == (due && k == 0)
  {
    if Accepts(p, f) {
      DrainFlags(p, Absorbed(p, s, f));
    }
  }

  lemma NewFlagIsExact(p: Plan, frames: seq<AudioFrame>, k: nat)
    requires frames != [] && PendingIsExact(p, Earlier(frames))
    requires |Run(p, Earlier(frames)).outputs| <= k < |Run(p, frames).outputs|
    ensures FlagIsExact(p, frames, k)
  {
    var r := Run(p, Earlier(frames));
    var old_ := |r.outputs|;
    StepFlags(p, r.state, Final(frames));
    assert Run(p, frames).outputs[k] == LastStep(p, frames).1[k - old_];
    if k == old_ {
      SinceUnchanged(p, frames, k);
      BrokenGrows(p, frames, SinceOutput(p, frames, k));
    }
  }

  lemma StepKeepsPendingExact(p: Plan, frames: seq<AudioFrame>)
    requires frames != [] && PendingIsExact(p, Earlier(frames))
    ensures PendingIsExact(p, frames)
  {
    var r, r' := Run(p, Earlier(frames)), Run(p, frames);
    StepFlags(p, r.state, Final(frames));
    if LastStep(p, frames).1 == [] {
      assert r'.outputs == r.outputs;
      SinceUnchanged(p, frames, |r.outputs|);
      BrokenGrows(p, frames, SinceOutput(p, frames, |r.outputs|));
    }
  }

  /** Output k is flagged exactly when a discontinuous input was accepted since output k - 1,
      and the flag still owed is exactly the one not yet delivered. */
  lemma {:induction false} FlagsAreExact(p: Plan, frames: seq<AudioFrame>)
    ensures PendingIsExact(p, frames)
    ensures forall k :: 0 <= k < |Run(p, frames).outputs| ==> FlagIsExact(p, frames, k)
  {
    if frames == [] {
    } else {
      FlagsAreExact(p, Earlier(frames));
      StepKeepsPendingExact(p, frames);
      forall k | 0 <= k < |Run(p, frames).outputs|
        ensures FlagIsExact(p, frames, k)
      {
        if k < |Run(p, Earlier(frames)).outputs| {
          OldFlagStaysExact(p, frames, k);
        } else {
          NewFlagIsExact(p, frames, k);
        }
      }
    }
  }

  // ----- One producer, several streams ----------------------------------------------------

  /** A frame is rejected, and nothing but the count of rejected frames changes, exactly when its
      format, rate or number of channels is not the configured one. */
  lemma RejectedMeansOtherFormat(p: Plan, s: State, f: AudioFrame)
    ensures Step(p, s, f) == (s.(rejectedFrames := s.rejectedFrames + 1), [])
       <==> f.format != p.input.format || f.sampleRate != p.input.sampleRate || f.channels != p.input.channels
  {
    if Accepts(p, f) {
      StepCounts(p, s, f);
    }
  }

  /** How many of these frames do not carry the configured format. */
  function Refused(p: Plan, frames: seq<AudioFrame>): (n: nat)
    ensures n <= |frames|
  {
    if frames == [] then 0 else Refused(p, Earlier(frames)) + if Accepts(p, Final(frames)) then 0 else 1
  }

  lemma {:induction false} DrainKeepsCounts(p: Plan, s: State)
    requires s.anchor.Some?
    ensures var s' := Drained(p, s).0;
      s'.rejectedFrames == s.rejectedFrames && s'.framesIn == s.framesIn
    decreases |s.pending|
  {
    if |s.pending| < p.frameSamples {
    } else {
      DrainKeepsCounts(p, AfterOutput(p, s));
    }
  }

  lemma StepCounts(p: Plan, s: State, f: AudioFrame)
    ensures var s' := Step(p, s, f).0;
      && s'.rejectedFrames == s.rejectedFrames + (if Accepts(p, f) then 0 else 1)
      && s'.framesIn == s.framesIn + (if Accepts(p, f) then 1 else 0)
  {
    if Accepts(p, f) {
      DrainKeepsCounts(p, Absorbed(p, s, f));
    }
  }

  /** Every frame is either taken in or rejected, and the counters say which. */
  lemma {:induction false} FramesAreCounted(p: Plan, frames: seq<AudioFrame>)
    ensures var s := Run(p, frames).state;
      s.rejectedFrames == Refused(p, frames) && s.framesIn + s.rejectedFrames == |frames|
  {
    if frames == [] {
    } else {
      FramesAreCounted(p, Earlier(frames));
      StepCounts(p, Run(p, Earlier(frames)).state, Final(frames));
    }
  }

  /** None of these frames carries the configured format. */
  predicate NoneFits(p: Plan, frames: seq<AudioFrame>) {
    forall i :: 0 <= i < |frames| ==> !Accepts(p, frames[i])
  }

  lemma {:induction false} RefusedAppend(p: Plan, a: seq<AudioFrame>, b: seq<AudioFrame>)
    ensures Refused(p, a + b) == Refused(p, a) + Refused(p, b)
  {
    if b == [] {
      assert a + b == a;
    } else {
      RefusedAppend(p, a, Earlier(b));
      assert Earlier(a + b) == a + Earlier(b) && Final(a + b) == Final(b);
    }
  }

  lemma NoneFitsUnfold(p: Plan, frames: seq<AudioFrame>)
    requires frames != []
    ensures NoneFits(p, frames) <==> NoneFits(p, Earlier(frames)) && !Accepts(p, Final(frames))
  {
    assert forall i :: 0 <= i < |frames| - 1 ==> frames[i] == Earlier(frames)[i];
  }

  lemma {:induction false} AllRefusedMeansNoneFits(p: Plan, frames: seq<AudioFrame>)
    ensures Refused(p, frames) == |frames| <==> NoneFits(p, frames)
  {
    if frames == [] {
    } else {
      AllRefusedMeansNoneFits(p, Earlier(frames));
      NoneFitsUnfold(p, frames);
    }
  }

  lemma {:induction false} NoneFitsAddsNothing(p: Plan, a: seq<AudioFrame>, b: seq<AudioFrame>)
    requires NoneFits(p, b)
    ensures var r, r' := Run(p, a), Run(p, a + b);
      r'.outputs == r.outputs && r'.state == r.state.(rejectedFrames := r.state.rejectedFrames + |b|)
  {
    if b == [] {
      assert a + b == a;
    } else {
      NoneFitsUnfold(p, b);
      NoneFitsAddsNothing(p, a, Earlier(b));
      assert Earlier(a + b) == a + Earlier(b) && Final(a + b) == Final(b);
      Sequences.ConcatEmpty(Run(p, a).outputs);
    }
  }

  /** A producer handed a stream of another format, as when a recording begun with the microphone
      goes on with system output alone, rejects every frame of it, counts each, and emits nothing.
      That is exactly when no frame of the stream carries its format. */
  lemma OtherFormatIsRejected(p: Plan, a: seq<AudioFrame>, b: seq<AudioFrame>)
    ensures var r, r' := Run(p, a), Run(p, a + b);
      && (r'.state.rejectedFrames == r.state.rejectedFrames + |b| <==> NoneFits(p, b))
      && (NoneFits(p, b) ==>
            && r'.outputs == r.outputs
            && r'.state == r.state.(rejectedFrames := r.state.rejectedFrames + |b|))
  {
    FramesAreCounted(p, a);
    FramesAreCounted(p, a + b);
    RefusedAppend(p, a, b);
    AllRefusedMeansNoneFits(p, b);
    if NoneFits(p, b) {
      NoneFitsAddsNothing(p, a, b);
    }
  }

  /** The flag on the first frame of the configured format. */
  function FirstFlag(p: Plan, frames: seq<AudioFrame>): Option<bool> {
    if frames == [] then None
    else
      var earlier := FirstFlag(p, Earlier(frames));
      if earlier.None? && Accepts(p, Final(frames)) then Some(Final(frames).discontinuity) else earlier
  }

  lemma {:induction false} FirstFlagIsOnFirst(p: Plan, frames: seq<AudioFrame>)
    requires frames != [] && Accepts(p, frames[0])
    ensures FirstFlag(p, frames) == Some(frames[0].discontinuity)
  {
    if Earlier(frames) == [] {
    } else {
      FirstFlagIsOnFirst(p, Earlier(frames));
    }
  }

  /** The stretches of one stream followed by those of another: the last and the first are one
      stretch unless they are kept apart. */
  function Spliced(one: seq<seq<Sample>>, two: seq<seq<Sample>>, apart: bool): seq<seq<Sample>> {
    if apart || one == [] || two == [] then one + two
    else one[..|one| - 1] + [Current(one) + two[0]] + two[1..]
  }

  lemma ExtendApart(one: seq<seq<Sample>>, two: seq<seq<Sample>>, mono: seq<Sample>, cut: bool)
    requires two != []
    ensures Extended(one + two, mono, cut) == one + Extended(two, mono, cut)
  {
  }

  lemma CutSplices(init: seq<seq<Sample>>, joint: seq<Sample>, two: seq<seq<Sample>>, mono: seq<Sample>)
    requires two != []
    ensures init + [joint] + two[1..] + [mono] == init + [joint] + (two + [mono])[1..]
  {
    assert (two + [mono])[1..] == two[1..] + [mono];
    Associate(init + [joint], two[1..], [mono]);
  }

  lemma TailSplices(init: seq<seq<Sample>>, joint: seq<Sample>, two: seq<seq<Sample>>, mono: seq<Sample>)
    requires |two| > 1
    ensures Extended(init + [joint] + two[1..], mono, false) == init + [joint] + Extended(two, mono, false)[1..]
  {
    ExtendApart(init + [joint], two[1..], mono, false);
    assert Extended(two, mono, false)[1..] == Extended(two[1..], mono, false);
  }

  lemma HeadSplices(init: seq<seq<Sample>>, current: seq<Sample>, first: seq<Sample>, mono: seq<Sample>)
    ensures Extended(init + [current + first], mono, false) == init + [current + (first + mono)]
  {
    Associate(current, first, mono);
    ExtendApart(init, [current + first], mono, false);
  }

  lemma ExtendSplices(one: seq<seq<Sample>>, two: seq<seq<Sample>>, apart: bool, mono: seq<Sample>, cut: bool)
    requires two != []
    ensures Extended(Spliced(one, two, apart), mono, cut) == Spliced(one, Extended(two, mono, cut), apart)
  {
    if apart || one == [] {
      ExtendApart(one, two, mono, cut);
    } else {
      var init, joint := one[..|one| - 1], Current(one) + two[0];
      if cut {
        CutSplices(init, joint, two, mono);
      } else if |two| > 1 {
        TailSplices(init, joint, two, mono);
      } else {
        HeadSplices(init, Current(one), two[0], mono);
        ConcatEmpty(init + [joint]);
        ConcatEmpty(init + [Current(one) + (two[0] + mono)]);
      }
    }
  }

  lemma BeginSplices(one: seq<seq<Sample>>, mono: seq<Sample>, cut: bool)
    ensures Extended(one, mono, cut) == Spliced(one, [mono], cut)
  {
  }

  lemma {:induction false} FirstFlagIsFirst(p: Plan, frames: seq<AudioFrame>)
    ensures FirstFlag(p, frames).Some? <==> Stretches(p, frames) != []
  {
    if frames == [] {
    } else {
      FirstFlagIsFirst(p, Earlier(frames));
    }
  }

  /** One producer over two streams: the filter runs on from the first into the second, and no
      break is heard, unless the second stream's first accepted frame is flagged. */
  lemma {:induction false} StreamsAreSpliced(p: Plan, a: seq<AudioFrame>, b: seq<AudioFrame>)
    ensures Stretches(p, a + b) == Spliced(Stretches(p, a), Stretches(p, b), FirstFlag(p, b) == Some(true))
  {
    if b == [] {
      assert a + b == a;
    } else {
      StreamsAreSpliced(p, a, Earlier(b));
      FirstFlagIsFirst(p, Earlier(b));
      assert Earlier(a + b) == a + Earlier(b) && Final(a + b) == Final(b);
      var mono := Mono(p.input.channels, Final(b).payload);
      if !Accepts(p, Final(b)) {
      } else if FirstFlag(p, Earlier(b)).None? {
        BeginSplices(Stretches(p, a), mono, Final(b).discontinuity);
      } else {
        ExtendSplices(Stretches(p, a), Stretches(p, Earlier(b)), FirstFlag(p, b) == Some(true), mono,
                      Final(b).discontinuity);
      }
    }
  }

  /** The two streams' stretches stay apart exactly when that frame is flagged, or one of the
      streams gave the producer nothing. */
  lemma SpliceIsHeardExactlyUnflagged(p: Plan, a: seq<AudioFrame>, b: seq<AudioFrame>)
    ensures var one, two := Stretches(p, a), Stretches(p, b);
      Stretches(p, a + b) == one + two <==> FirstFlag(p, b) == Some(true) || one == [] || two == []
  {
    StreamsAreSpliced(p, a, b);
    var one, two := Stretches(p, a), Stretches(p, b);
    if FirstFlag(p, b) != Some(true) && one != [] && two != [] {
      assert |Spliced(one, two, false)| == |one| + |two| - 1;
    }
  }
}
