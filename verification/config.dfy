/** The process-wide sampling configuration of the ADC simulation. */
module AdcConfig {

  /** Sampling rate (Hz), fundamental frequency (Hz), window length (samples),
      ADC step size (volts per level) and the largest LSB error (levels). */
  datatype Config = Config(sampling: int, fundamental: int, window: int, stepSize: real, lsbError: int)
  {
    /** The invariants every run relies on: a positive window and at least one
        sample per fundamental period. */
    predicate Valid()
    {
      && fundamental >= 1
      && sampling / fundamental >= 1
      && window >= 1
      && stepSize >= 0.0
      && lsbError >= 0
    }

    /** Samples per fundamental period (C integer division of positive operands). */
    function Samples(): int
      requires fundamental >= 1
    {
      sampling / fundamental
    }

    /** Noise floor of the peak filter: the largest possible LSB error in volts. */
    function Threshold(): real
    {
      stepSize * lsbError as real
    }

    /** A value the uniform LSB-error distribution can produce. */
    predicate Drawable(d: int)
    {
      -lsbError <= d <= lsbError
    }
  }

  /** The constants of the program: 4000 Hz sampling, 0.1221 V per step,
      +-3 LSB error, an 800-sample window and a 50 Hz fundamental. */
  const Adc: Config := Config(4000, 50, 800, 0.1221, 3)

  /** Amplitude of the fundamental component built by the program. */
  const FundamentalAmplitude: int := 315

  /** The harmonic table as (order, amplitude) pairs, in ascending key order,
      which is the order a std::map is iterated in. */
  const AdcHarmonics: seq<(int, int)> := [(2, 50), (4, 25), (5, 10), (39, 5), (40, 10)]

  /** The largest value of the program's 32-bit `int`. */
  const IntMax: int := 0x7FFF_FFFF

  /** With the program's constants the frequency-key product of every
      scanned bin fits a 32-bit int, as do the window and the samples per
      period that bound the generator's counters. */
  lemma AdcKeyArithmeticFitsInt(i: int)
    requires 0 <= i < Adc.window / 2
    ensures 0 <= Adc.sampling * i <= IntMax
    ensures Adc.window <= IntMax && Adc.Samples() <= IntMax
  {
    assert Adc.sampling == 4000;
  }

  lemma AdcIsValid()
    ensures Adc.Valid() && Adc.Samples() == 80
    ensures Adc.sampling >= Adc.window
    ensures Adc.Threshold() == 0.3663
  {
  }
}
