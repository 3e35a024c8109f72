/** The program's run: the fundamental and each harmonic are generated,
    combined pairwise into one composite waveform, transformed, and the
    spectrum peaks extracted. */
module Pipeline {
  import opened AdcConfig
  import opened HarmonicGenerator
  import opened CompositeSignal
  import opened Quantizer
  import opened Spectrum
  import opened PeakExtractor

  /** formComplex as written, applied to two waves of window samples each
      (what makeWave returns), reads index window of both: past their end. */
  lemma {:induction false} MakeWaveOutputTooShortForFormComplex(cfg: Config, fundamental: seq<real>, harmonic: seq<real>)
    requires cfg.Valid()
    requires |fundamental| == cfg.window && |harmonic| == cfg.window
    ensures !AllReadable([fundamental, harmonic], cfg.window + 1)
  {
    assert fundamental in [fundamental, harmonic];
  }

  /** Any composite meeting formComplex's postcondition for waves readable
      up to index window does not fit the fft input buffer, which is fft's
      precondition. The sample it would write past the buffer, out[window],
      is the rounded sum of the waves at index window. */
  lemma FormComplexOutputOverflowsFftBuffer(waves: seq<seq<real>>, window: nat, out: seq<real>)
    requires |waves| >= 1 && AllReadable(waves, window + 1)
    requires |out| == window + 1
    requires forall i :: 0 <= i <= window ==> out[i] == Round4(SumAt(waves, i))
    ensures !FitsBuffer(out, window)
  {
  }

  /** window * n splits off one window. */
  lemma OneWindowLess(window: nat, n: nat)
    requires n >= 1
    ensures window * n == window * (n - 1) + window
  {
  }

  /** The composite main builds: starting from acc, each harmonic (order,
      amplitude) in turn is generated from the next window of draws and
      combined into the running composite. */
  function Composite(cfg: Config, harmonics: seq<(int, int)>, sin: real -> real, draws: seq<int>, acc: seq<real>): (c: seq<real>)
    requires cfg.Valid() && |acc| == cfg.window
    requires |draws| >= cfg.window * |harmonics|
    ensures |c| == cfg.window
    decreases |harmonics|
  {
    if harmonics == [] then acc
    else
      OneWindowLess(cfg.window, |harmonics|);
      Composite(cfg, harmonics[1..], sin, draws[cfg.window..],
                Combine(acc, Wave(cfg, harmonics[0].1, harmonics[0].0, sin, draws)))
  }

  /** One step of main's loop: the next harmonic is combined into the
      composite and the next window of draws is consumed. */
  lemma CompositeStep(cfg: Config, harmonics: seq<(int, int)>, sin: real -> real, draws: seq<int>,
                      acc: seq<real>, next: seq<real>)
    requires cfg.Valid() && |acc| == cfg.window && harmonics != []
    requires |draws| >= cfg.window * |harmonics|
    requires |draws| >= cfg.window
    requires next == Combine(acc, Wave(cfg, harmonics[0].1, harmonics[0].0, sin, draws))
    ensures |draws[cfg.window..]| >= cfg.window * |harmonics[1..]|
    ensures Composite(cfg, harmonics, sin, draws, acc) == Composite(cfg, harmonics[1..], sin, draws[cfg.window..], next)
  {
    OneWindowLess(cfg.window, |harmonics|);
  }

  /** The loop of main over the harmonic table, with the corrected
      composite builder: each harmonic is generated from the next window of
      draws and combined into the running composite. */
  method BuildComposite(cfg: Config, harmonics: seq<(int, int)>, sin: real -> real, draws: seq<int>, start: seq<real>)
    returns (complex: seq<real>)
    requires cfg.Valid() && |start| == cfg.window
    requires |draws| >= cfg.window * |harmonics|
    ensures complex == Composite(cfg, harmonics, sin, draws, start)
  {
    complex := start;
    var rest := draws;
    assert harmonics[0..] == harmonics;
    var h := 0;
    while h < |harmonics|
      invariant 0 <= h <= |harmonics|
      invariant |complex| == cfg.window
      invariant |rest| >= cfg.window * |harmonics[h..]|
      invariant Composite(cfg, harmonics[h..], sin, rest, complex) == Composite(cfg, harmonics, sin, draws, start)
    {
      assert |rest| >= cfg.window by {
        MulMonotone(1, |harmonics[h..]|, cfg.window);
      }
      var (order, amplitude) := harmonics[h];
      var wave := MakeWave(cfg, amplitude, order, sin, rest);
      var next := FormComplexWindow([complex, wave], cfg.window);
      forall k | 0 <= k < cfg.window
        ensures next[k] == Combine(complex, wave)[k]
      {
        SumAtPair(complex, wave, k);
      }
      assert next == Combine(complex, wave);
      CompositeStep(cfg, harmonics[h..], sin, rest, complex, next);
      assert harmonics[h..][1..] == harmonics[h + 1..];
      rest := rest[cfg.window..];
      complex := next;
      h := h + 1;
    }
  }

  /** The program's run with the corrected composite builder: the
      fundamental is generated from the first window of draws, each harmonic
      from the next window and combined into the composite, which is staged
      into the transform and scanned for peaks. The composite has window
      samples and fits the transform buffer. Every reported peak is above
      the noise floor, and when keys are distinct every reported frequency
      lies strictly between 0 and half the sampling rate. */
  method Analyse(cfg: Config, fundamentalAmplitude: int, harmonics: seq<(int, int)>,
                 sin: real -> real, sqrt: real -> real, transform: seq<Cpx> -> seq<Cpx>, draws: seq<int>)
    returns (peaks: map<real, real>, ghost composite: seq<real>, ghost staged: seq<Cpx>, ghost bins: seq<Cpx>)
    requires cfg.Valid()
    requires |draws| >= cfg.window * (|harmonics| + 1)
    ensures |draws| >= cfg.window && |draws[cfg.window..]| >= cfg.window * |harmonics|
    ensures composite == Composite(cfg, harmonics, sin, draws[cfg.window..],
                                   Wave(cfg, fundamentalAmplitude, 1, sin, draws))
    ensures IsTransformOf(bins, staged, composite, cfg.window, transform)
    ensures ScannedUpTo(cfg, bins, sqrt, cfg.window / 2, peaks)
    ensures forall f :: f in peaks ==> peaks[f] > cfg.Threshold()
    ensures forall f :: f in peaks ==> exists j :: 1 <= j < cfg.window / 2 && FreqKey(cfg, j) == f
    ensures cfg.sampling >= cfg.window ==> forall f :: f in peaks ==> 0.0 < f < cfg.sampling as real / 2.0
  {
    assert |draws| >= cfg.window by {
      MulMonotone(1, |harmonics| + 1, cfg.window);
    }
    OneWindowLess(cfg.window, |harmonics| + 1);
    var fundamental := MakeWave(cfg, fundamentalAmplitude, 1, sin, draws);
    var complex := BuildComposite(cfg, harmonics, sin, draws[cfg.window..], fundamental);
    composite := complex;
    var out;
    out, staged := Fft(complex, cfg.window, transform);
    bins := out;
    peaks := FindFftPeaks(cfg, out, sqrt);
    assert |bins| / 2 == cfg.window / 2;
    if cfg.sampling >= cfg.window {
      forall f | f in peaks
        ensures 0.0 < f < cfg.sampling as real / 2.0
      {
        var j :| 1 <= j < |bins| / 2 && FreqKey(cfg, j) == f && Kept(cfg, bins, sqrt, j)
                 && peaks[f] == Magnitude(cfg, bins[j], sqrt);
        FreqKeyRange(cfg, j);
      }
    }
  }

  /** The corrected run with the program's constants: the 315 V
      fundamental and the harmonic table. The composite, its transform and
      the peak scan are those of Analyse; every reported peak is above
      0.3663 V, and every reported frequency is 5 * j Hz for a scanned bin
      j, so it is a multiple of 5 Hz strictly between 0 and 2000 Hz. */
  method AnalyseAdc(sin: real -> real, sqrt: real -> real, transform: seq<Cpx> -> seq<Cpx>, draws: seq<int>)
    returns (peaks: map<real, real>, ghost composite: seq<real>, ghost staged: seq<Cpx>, ghost bins: seq<Cpx>)
    requires |draws| >= Adc.window * (|AdcHarmonics| + 1)
    ensures |draws| >= 4800 && |draws[800..]| >= Adc.window * |AdcHarmonics|
    ensures composite == Composite(Adc, AdcHarmonics, sin, draws[800..],
                                   Wave(Adc, FundamentalAmplitude, 1, sin, draws))
    ensures IsTransformOf(bins, staged, composite, 800, transform)
    ensures ScannedUpTo(Adc, bins, sqrt, 400, peaks)
    ensures forall f :: f in peaks ==> peaks[f] > 0.3663
    ensures forall f :: f in peaks ==> exists j :: 1 <= j < 400 && f == FiveHz(j)
  {
    AdcIsValid();
    peaks, composite, staged, bins := Analyse(Adc, FundamentalAmplitude, AdcHarmonics, sin, sqrt, transform, draws);
    forall f | f in peaks
      ensures exists j :: 1 <= j < 400 && f == FiveHz(j)
    {
      var j :| 1 <= j < Adc.window / 2 && FreqKey(Adc, j) == f;
      AdcFreqKey(j);
      assert f == FiveHz(j);
    }
  }

  /** Bin j's frequency with the program's constants. */
  function FiveHz(j: int): real
  {
    (5 * j) as real
  }
}
