/** The harmonic generator: one window of ADC samples of a single sinusoid,
    with the per-sample LSB error added. */
module HarmonicGenerator {
  import opened AdcConfig
  import opened Quantizer

  /** The value of pi the program uses. */
  const Pi: real := 3.14159265359

  /** The phase index of the k-th emitted sample: the first pass runs over
      0 .. samples, and every later pass over 1 .. samples, because the
      loop variable is set back to 0 and then incremented. Index 0 is only
      ever used by the very first sample. */
  function PhaseIndex(samples: int, k: nat): (r: int)
    requires samples >= 1
    ensures 0 <= r <= samples
    ensures r == 0 <==> k == 0
    decreases k
  {
    if k <= samples then k else PhaseIndex(samples, k - samples)
  }

  /** The number of whole periods completed before the k-th sample. */
  function Periods(samples: int, k: nat): nat
    requires samples >= 1
    decreases k
  {
    if k <= samples then 0 else Periods(samples, k - samples) + 1
  }

  /** The scheduler's step: after the last index of a period comes index 1,
      otherwise the next index. */
  lemma {:induction false} PhaseIndexStep(samples: int, k: nat)
    requires samples >= 1
    ensures PhaseIndex(samples, k + 1) ==
            if PhaseIndex(samples, k) == samples then 1 else PhaseIndex(samples, k) + 1
    decreases k
  {
    if k > samples {
      PhaseIndexStep(samples, k - samples);
    }
  }

  /** The waveform is phase-continuous: sample k sits at its phase index plus
      a whole number of periods, i.e. at the angle of sample k of an unbroken
      sampling of the sinusoid. */
  lemma {:induction false} PhaseIndexContinuous(samples: int, k: nat)
    requires samples >= 1
    ensures k == Periods(samples, k) * samples + PhaseIndex(samples, k)
    decreases k
  {
    if k > samples {
      PhaseIndexContinuous(samples, k - samples);
      assert (Periods(samples, k - samples) + 1) * samples == Periods(samples, k - samples) * samples + samples;
    }
  }

  /** After the first sample the schedule repeats every `samples` samples. */
  lemma PhaseIndexPeriodic(samples: int, k: nat)
    requires samples >= 1 && k >= 1
    ensures PhaseIndex(samples, k + samples) == PhaseIndex(samples, k)
    ensures Periods(samples, k + samples) == Periods(samples, k) + 1
  {
  }

  /** The angle, in radians, of the sin argument at a phase index: the
      index in degrees is index * (360 / samples), converted with the
      program's pi and multiplied by the harmonic order. */
  function Angle(samples: int, position: int, phase: int): (a: real)
    requires samples >= 1
    ensures phase == 0 ==> a == 0.0
  {
    var degrees := phase as real * (360.0 / samples as real);
    var radians := degrees * (Pi / 180.0);
    position as real * radians
  }

  /** The exact (noise-free) value at a phase index: the amplitude times
      sin of the angle. */
  function Exact(samples: int, mag: int, position: int, sin: real -> real, phase: int): real
    requires samples >= 1
  {
    mag as real * sin(Angle(samples, position, phase))
  }

  lemma MagnitudeBound(m: real, s: real)
    requires -1.0 <= s <= 1.0
    ensures Abs(m * s) <= Abs(m)
  {
    if m >= 0.0 {
      assert m * s <= m * 1.0 && m * s >= m * -1.0;
    } else {
      assert m * s >= m * 1.0 && m * s <= m * -1.0;
    }
  }

  /** With sin bounded by 1, no exact value exceeds the amplitude. */
  lemma ExactBounded(samples: int, mag: int, position: int, sin: real -> real, phase: int)
    requires samples >= 1
    requires forall x :: -1.0 <= sin(x) <= 1.0
    ensures Abs(Exact(samples, mag, position, sin, phase)) <= Abs(mag as real)
  {
    MagnitudeBound(mag as real, sin(Angle(samples, position, phase)));
  }

  /** The k-th sample: the exact value at its phase index plus the k-th LSB
      draw scaled by the step size. The quantized value plays no part. */
  function Sample(cfg: Config, mag: int, position: int, sin: real -> real, draws: seq<int>, k: nat): real
    requires cfg.Valid() && k < |draws|
  {
    Exact(cfg.Samples(), mag, position, sin, PhaseIndex(cfg.Samples(), k)) + cfg.stepSize * draws[k] as real
  }

  /** The wave makeWave generates for magnitude mag and harmonic position
      from the given LSB draws: window samples, sample k being Sample k. */
  function Wave(cfg: Config, mag: int, position: int, sin: real -> real, draws: seq<int>): (w: seq<real>)
    requires cfg.Valid() && |draws| >= cfg.window
    ensures |w| == cfg.window
  {
    seq(cfg.window, k requires 0 <= k < cfg.window => Sample(cfg, mag, position, sin, draws, k))
  }

  /** Every sample lies within stepSize * lsbError of its exact value. */
  lemma SampleNoiseBounded(cfg: Config, mag: int, position: int, sin: real -> real, draws: seq<int>, k: nat)
    requires cfg.Valid() && k < |draws| && cfg.Drawable(draws[k])
    ensures Abs(Sample(cfg, mag, position, sin, draws, k)
                - Exact(cfg.Samples(), mag, position, sin, PhaseIndex(cfg.Samples(), k))) <= cfg.Threshold()
  {
    MulMono(cfg.stepSize, draws[k] as real, cfg.lsbError as real);
    MulMono(cfg.stepSize, -(cfg.lsbError as real), draws[k] as real);
  }

  /** The samples after the first repeat with the period of the fundamental,
      apart from their noise. */
  lemma ExactPartPeriodic(cfg: Config, mag: int, position: int, sin: real -> real, k: nat)
    requires cfg.Valid() && k >= 1
    ensures Exact(cfg.Samples(), mag, position, sin, PhaseIndex(cfg.Samples(), k + cfg.Samples()))
         == Exact(cfg.Samples(), mag, position, sin, PhaseIndex(cfg.Samples(), k))
  {
    PhaseIndexPeriodic(cfg.Samples(), k);
  }

  /** makeWave: emits exactly `window` samples; sample k is the exact value at
      PhaseIndex(samples, k) plus stepSize * draws[k]. The loop variable is
      reset inside the body and the loop ends through the window counter. */
  method MakeWave(cfg: Config, mag: int, position: int, sin: real -> real, draws: seq<int>)
    returns (wave: seq<real>)
    requires cfg.Valid() && |draws| >= cfg.window
    ensures |wave| == cfg.window
    ensures forall k :: 0 <= k < |wave| ==> wave[k] == Sample(cfg, mag, position, sin, draws, k)
    ensures wave == Wave(cfg, mag, position, sin, draws)
  {
    wave := [];
    var windowCount := 0;
    var samples := cfg.sampling / cfg.fundamental;
    var i := 0;
    while i <= samples
      invariant 0 <= windowCount < cfg.window
      invariant |wave| == windowCount
      invariant i == PhaseIndex(samples, windowCount)
      invariant forall k :: 0 <= k < windowCount ==> wave[k] == Sample(cfg, mag, position, sin, draws, k)
      decreases cfg.window - windowCount
    {
      var value := Exact(samples, mag, position, sin, i);
      // The quantized value is computed and not used.
      var quantized := RoundUp(value, cfg.stepSize);
      var lsb := cfg.stepSize * draws[windowCount] as real;
      value := value + lsb;
      assert value == Sample(cfg, mag, position, sin, draws, windowCount);
      wave := wave + [value];
      PhaseIndexStep(samples, windowCount);
      windowCount := windowCount + 1;
      if i == samples && windowCount < cfg.window {
        i := 0;
      }
      if windowCount == cfg.window {
        break;
      }
      i := i + 1;
    }
  }
}
