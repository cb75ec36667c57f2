/** Integer-factor decimation: the circular-history filter against direct convolution.
    Arithmetic is over the reals; the coefficients are whatever the filter design produced. */
module FirDecimation {
  import opened Arithmetic

  type Sample = s: int | -32768 <= s < 32768

  /** Rounds half away from zero. */
  function Round(v: real): int {
    if v >= 0.0 then (v + 0.5).Floor else -((0.5 - v).Floor)
  }

  function ClampToS16(v: real): Sample {
    Max(-32768, Min(32767, Round(v)))
  }

  /** The nearest integer, ties away from zero. */
  lemma RoundIsNearest(v: real)
    ensures -0.5 <= Round(v) as real - v <= 0.5
    ensures Round(v) as real - v == 0.5 ==> v > 0.0
    ensures Round(v) as real - v == -0.5 ==> v < 0.0
  {
    assert (v + 0.5).Floor as real <= v + 0.5 < (v + 0.5).Floor as real + 1.0;
    assert (0.5 - v).Floor as real <= 0.5 - v < (0.5 - v).Floor as real + 1.0;
  }

  // ----- Direct convolution -------------------------------------------------------------

  /** The signal is silent before its start. */
  function At(signal: seq<Sample>, i: int): real {
    if 0 <= i < |signal| then signal[i] as real else 0.0
  }

  /** The first `taps` terms of the convolution at n, added in the order of the taps. */
  function Dot(h: seq<real>, signal: seq<Sample>, n: int, taps: nat): real
    requires taps <= |h|
  {
    if taps == 0 then 0.0 else Dot(h, signal, n, taps - 1) + h[taps - 1] * At(signal, n - (taps - 1))
  }

  function Filtered(h: seq<real>, signal: seq<Sample>, n: int): Sample {
    ClampToS16(Dot(h, signal, n, |h|))
  }

  /** What a filter that keeps every factor-th output has produced by the end of the signal. */
  function Decimated(h: seq<real>, factor: nat, signal: seq<Sample>): seq<Sample>
    requires factor > 0
  {
    if signal == [] then []
    else
      var last := |signal| - 1;
      Decimated(h, factor, signal[..last]) + if last % factor == 0 then [Filtered(h, signal, last)] else []
  }

  lemma {:induction false} DotSeesThePast(h: seq<real>, signal: seq<Sample>, more: seq<Sample>, n: nat, taps: nat)
    requires taps <= |h| && n < |signal|
    ensures Dot(h, signal + more, n, taps) == Dot(h, signal, n, taps)
  {
    if taps == 0 {
    } else {
      DotSeesThePast(h, signal, more, n, taps - 1);
    }
  }

  lemma CeilStep(n: nat, factor: nat)
    requires factor > 0
    ensures CeilDiv(n + 1, factor) == CeilDiv(n, factor) + if n % factor == 0 then 1 else 0
    ensures n % factor == 0 ==> CeilDiv(n, factor) * factor == n
    ensures (n + 1) % factor == if n % factor + 1 == factor then 0 else n % factor + 1
  {
    var q, r := n / factor, n % factor;
    assert n == q * factor + r;
    if r + 1 == factor {
      assert (q + 1) * factor == q * factor + factor;
      QuotientUnique(n + 1, factor, q + 1);
    } else {
      QuotientUnique(n + 1, factor, q);
    }
  }

  lemma WrapStep(x: nat, n: nat)
    requires x < n
    ensures (x + 1) % n == if x + 1 == n then 0 else x + 1
  {
    if x + 1 == n {
      QuotientUnique(n, n, 1);
    } else {
      QuotientUnique(x + 1, n, 0);
    }
  }

  /** The sixteen-bit sample for a sum: the nearest integer, ties away from zero, and the nearer
      end of the range for a sum outside it. */
  predicate IsRounded(sum: real, out: int) {
    if sum > 32767.0 then out == 32767
    else if sum < -32768.0 then out == -32768
    else
      && -0.5 <= out as real - sum <= 0.5
      && (out as real - sum == 0.5 ==> sum > 0.0)
      && (out as real - sum == -0.5 ==> sum < 0.0)
  }

  lemma ClampRounds(v: real)
    ensures IsRounded(v, ClampToS16(v))
  {
    RoundIsNearest(v);
  }

  /** Output m is the convolution at m * factor, rounded and clamped, and there are as many
      outputs as the signal length divided by the factor, rounded up. */
  lemma {:induction false} DecimationIsConvolution(h: seq<real>, factor: nat, signal: seq<Sample>)
    requires factor > 0
    ensures |Decimated(h, factor, signal)| == CeilDiv(|signal|, factor)
    ensures forall m :: 0 <= m < |Decimated(h, factor, signal)| ==>
              && Decimated(h, factor, signal)[m] == Filtered(h, signal, m * factor)
              && IsRounded(Dot(h, signal, m * factor, |h|), Decimated(h, factor, signal)[m])
  {
    forall m: nat ensures IsRounded(Dot(h, signal, m * factor, |h|), Filtered(h, signal, m * factor)) {
      ClampRounds(Dot(h, signal, m * factor, |h|));
    }
    if signal == [] {
      assert 0 % factor == 0;
    } else {
      var last := |signal| - 1;
      var init := signal[..last];
      DecimationIsConvolution(h, factor, init);
      CeilStep(last, factor);
      assert signal == init + [signal[last]];
      forall m | 0 <= m < |Decimated(h, factor, init)|
        ensures Decimated(h, factor, signal)[m] == Filtered(h, signal, m * factor)
      {
        OutputIsInside(m, last, factor);
        DotSeesThePast(h, init, [signal[last]], m * factor, |h|);
      }
    }
  }

  lemma OutputIsInside(m: nat, n: nat, factor: nat)
    requires factor > 0 && m < CeilDiv(n, factor)
    ensures 0 <= m * factor < n
  {
    CeilDivBounds(n, factor);
    assert (m + 1) * factor <= CeilDiv(n, factor) * factor;
  }

  /** Feeding more of the signal only adds outputs. */
  lemma {:induction false} DecimatedGrows(h: seq<real>, factor: nat, signal: seq<Sample>, more: seq<Sample>)
    requires factor > 0
    ensures Decimated(h, factor, signal) <= Decimated(h, factor, signal + more)
  {
    if more == [] {
      assert signal + more == signal;
    } else {
      var init := more[..|more| - 1];
      DecimatedGrows(h, factor, signal, init);
      assert (signal + more)[..|signal + more| - 1] == signal + init;
    }
  }

  // ----- The sum is the convolution -------------------------------------------------------

  /** A signal that is silent but for its last sample brings out the coefficients in their order,
      one a sample, scaled by that sample, and nothing before it. */
  lemma {:induction false} ImpulseBringsOutTaps(h: seq<real>, at: nat, x: Sample, more: seq<Sample>, n: int, taps: nat)
    requires taps <= |h| && forall i :: 0 <= i < |more| ==> more[i] == 0
    ensures var silence := seq(at, _ => 0);
      Dot(h, silence + [x] + more, n, taps) == if 0 <= n - at < taps then h[n - at] * x as real else 0.0
  {
    if taps == 0 {
    } else {
      ImpulseBringsOutTaps(h, at, x, more, n, taps - 1);
      var silence: seq<Sample> := seq(at, _ => 0);
      ImpulseAt(silence, x, more, n - (taps - 1));
    }
  }

  lemma ImpulseAt(silence: seq<Sample>, x: Sample, more: seq<Sample>, i: int)
    requires forall k :: 0 <= k < |silence| ==> silence[k] == 0
    requires forall k :: 0 <= k < |more| ==> more[k] == 0
    ensures At(silence + [x] + more, i) == if i == |silence| then x as real else 0.0
  {
  }

  /** Signals that are added sample by sample. */
  predicate IsSum(a: seq<Sample>, b: seq<Sample>, c: seq<Sample>) {
    |a| == |b| == |c| && forall i :: 0 <= i < |a| ==> c[i] as int == a[i] as int + b[i] as int
  }

  /** The sum of two signals brings out the sum of what each does: with what an impulse brings
      out, this settles the output for every signal. */
  lemma {:induction false} SumsAdd(h: seq<real>, a: seq<Sample>, b: seq<Sample>, c: seq<Sample>, n: int, taps: nat)
    requires taps <= |h| && IsSum(a, b, c)
    ensures Dot(h, c, n, taps) == Dot(h, a, n, taps) + Dot(h, b, n, taps)
  {
    if taps == 0 {
    } else {
      SumsAdd(h, a, b, c, n, taps - 1);
      var k := n - (taps - 1);
      TermsAdd(h[taps - 1], At(a, k), At(b, k), At(c, k));
    }
  }

  lemma TermsAdd(h: real, a: real, b: real, c: real)
    requires c == a + b
    ensures h * c == h * a + h * b
  {
  }

  lemma UnitTap(signal: seq<Sample>, n: nat)
    requires n < |signal|
    ensures Filtered([1.0], signal, n) == signal[n]
  {
    assert Dot([1.0], signal, n, 1) == Dot([1.0], signal, n, 0) + [1.0][0] * At(signal, n);
  }

  /** With one unit tap and no decimation every sample passes unchanged. */
  lemma {:induction false} FactorOneIsIdentity(signal: seq<Sample>)
    ensures Decimated([1.0], 1, signal) == signal
  {
    if signal == [] {
    } else {
      var init := signal[..|signal| - 1];
      FactorOneIsIdentity(init);
      UnitTap(signal, |init|);
      DecimatedKeeps([1.0], 1, signal);
    }
  }

  lemma DecimatedKeeps(h: seq<real>, factor: nat, signal: seq<Sample>)
    requires factor > 0 && signal != [] && (|signal| - 1) % factor == 0
    ensures Decimated(h, factor, signal)
         == Decimated(h, factor, signal[..|signal| - 1]) + [Filtered(h, signal, |signal| - 1)]
  {
  }

  // ----- The filter object --------------------------------------------------------------

  /** The signal index held in a slot of the circular history. */
  function Held(slot: nat, pos: nat, taps: nat, n: nat): int {
    n - pos + slot - if slot < pos then 0 else taps
  }

  /** Every slot holds the sample whose turn it is, or silence from before the start. */
  predicate Holds(history: seq<real>, pos: nat, signal: seq<Sample>) {
    forall i :: 0 <= i < |history| ==> history[i] == At(signal, Held(i, pos, |history|, |signal|))
  }

  /** Overwriting the oldest slot with the newest sample. */
  lemma HistoryAdvances(history: seq<real>, pos: nat, signal: seq<Sample>, sample: Sample)
    requires pos < |history| && Holds(history, pos, signal)
    ensures Holds(history[pos := sample as real], pos + 1, signal + [sample])
    ensures pos + 1 == |history| ==> Holds(history[pos := sample as real], 0, signal + [sample])
  {
  }

  class FirDecimator {
    const factor: nat
    const coefficients: seq<real>
    const history: array<real>
    var historyPos: nat
    var phase: nat
    /** Everything processed since construction or the last reset. */
    ghost var signal: seq<Sample>

    ghost predicate Shape()
      reads this
    {
      && factor > 0
      && history.Length == |coefficients| > 0
      && historyPos < history.Length
    }

    ghost predicate Valid()
      reads this, history
    {
      && Shape()
      && phase == |signal| % factor
      && Holds(history[..], historyPos, signal)
    }

    constructor (factor: nat, design: seq<real>)
      requires design != []
      ensures Valid() && fresh(history) && signal == []
      ensures this.factor == (if factor == 0 then 1 else factor)
      ensures coefficients == (if this.factor == 1 then [1.0] else design)
    {
      this.factor := if factor == 0 then 1 else factor;
      var h := if factor <= 1 then [1.0] else design;
      coefficients := h;
      history := new real[|h|](_ => 0.0);
      historyPos, phase, signal := 0, 0, [];
    }

    /** The inner loop: the newest sample is at historyPos, older ones behind it. */
    method Convolve(ghost heard: seq<Sample>) returns (acc: real)
      requires Shape() && heard != [] && Holds(history[..], historyPos + 1, heard)
      ensures acc == Dot(coefficients, heard, |heard| - 1, |coefficients|)
    {
      var taps := |coefficients|;
      acc := 0.0;
      var index := historyPos;
      for k := 0 to taps
        invariant index < taps
        invariant index == if k <= historyPos then historyPos - k else historyPos - k + taps
        invariant acc == Dot(coefficients, heard, |heard| - 1, k)
      {
        assert k < taps ==> Held(index, historyPos + 1, taps, |heard|) == |heard| - 1 - k;
        assert history[..][index] == history[index];
        acc := acc + coefficients[k] * history[index];
        index := if index == 0 then taps - 1 else index - 1;
      }
    }

    method ProcessSample(sample: Sample, output: seq<Sample>) returns (extended: seq<Sample>)
      requires Valid()
      modifies this`historyPos, this`phase, this`signal, history
      ensures Valid() && signal == old(signal) + [sample]
      ensures extended == output
        + if |old(signal)| % factor == 0 then [Filtered(coefficients, signal, |old(signal)|)] else []
    {
      extended := output;
      ghost var heard := signal + [sample];
      HistoryAdvances(history[..], historyPos, signal, sample);
      history[historyPos] := sample as real;
      assert history[..] == old(history[..])[historyPos := sample as real];
      if phase == 0 {
        var acc := Convolve(heard);
        extended := extended + [ClampToS16(acc)];
      }
      CeilStep(|signal|, factor);
      WrapStep(phase, factor);
      WrapStep(historyPos, |coefficients|);
      phase := (phase + 1) % factor;
      historyPos := (historyPos + 1) % |coefficients|;
      signal := heard;
    }

    /** Any number of samples; the outputs added are those the longer signal adds. */
    method Process(input: seq<Sample>, output: seq<Sample>) returns (extended: seq<Sample>)
      requires Valid()
      modifies this`historyPos, this`phase, this`signal, history
      ensures Valid() && signal == old(signal) + input
      ensures Decimated(coefficients, factor, old(signal)) <= Decimated(coefficients, factor, signal)
      ensures extended == output
        + Decimated(coefficients, factor, signal)[|Decimated(coefficients, factor, old(signal))|..]
    {
      extended := output;
      ghost var before := Decimated(coefficients, factor, signal);
      for i := 0 to |input|
        invariant Valid() && signal == old(signal) + input[..i]
        invariant before <= Decimated(coefficients, factor, signal)
        invariant extended == output + Decimated(coefficients, factor, signal)[|before|..]
      {
        ghost var heard := signal;
        extended := ProcessSample(input[i], extended);
        assert signal[..|heard|] == heard;
        assert input[..i + 1] == input[..i] + [input[i]];
      }
      assert input[..|input|] == input;
    }

    /** Afterwards the filter is as freshly built. */
    method Reset()
      requires Valid()
      modifies this`historyPos, this`phase, this`signal, history
      ensures Valid() && signal == []
      ensures historyPos == 0 && phase == 0 && forall i :: 0 <= i < history.Length ==> history[i] == 0.0
    {
      for i := 0 to history.Length
        invariant forall j :: 0 <= j < i ==> history[j] == 0.0
      {
        history[i] := 0.0;
      }
      historyPos, phase, signal := 0, 0, [];
    }
  }
}
