# ADC harmonics experiment — a Dafny model

The program simulates what a 12-bit ADC sees when it samples a distorted
mains waveform and then recovers the spectrum of that capture. It builds one
window of samples for the fundamental and for each entry of its harmonic
table (`makeWave`), adds per-sample LSB noise, sums the waves sample by
sample with four-decimal rounding (`formComplex`), stages the composite into
the fixed-size input buffer of a forward FFT (`fft`), and keeps the bins of
the lower half of the spectrum whose magnitude is above the noise floor
`stepSize * lsbError`, keyed by their frequency in Hz (`findFFTPeaks`).

This project models the discrete skeleton of that pipeline and proves its
bounds, lengths and filter contracts:

- `config.dfy` (`AdcConfig`): the sampling configuration as a datatype, with
  the program's constants (4000 Hz, 50 Hz fundamental, 800-sample window,
  0.1221 V step, ±3 LSB) as `Adc`, the fundamental's amplitude and the
  harmonic table. Apart from the members that name `Adc`, every property
  below is proved for any valid configuration and, where a row says so,
  with the sampling rate at least the window length (the program's
  constants meet this), over unbounded integers (see "Left out" for the
  program's 32-bit `int`).
- `quantizer.dfy` (`Quantizer`): `roundUp` and the two roundings the program
  uses (`std::round`, `roundf` to four decimals), over `real`.
- `wave.dfy` (`HarmonicGenerator`): `makeWave` as a loop with the same
  index reset, window counter and `break`, proved to emit exactly `window`
  samples; the phase index schedule as a function; the noise bound.
- `composite.dfy` (`CompositeSignal`): `formComplex` as written and a
  corrected version that stays inside the window.
- `spectrum.dfy` (`Spectrum`): the staging of `fft` into a `window`-sized
  array; the transform itself is a parameter.
- `peaks.dfy` (`PeakExtractor`): the scan of `findFFTPeaks` over a map, with
  the key arithmetic and the strict threshold.
- `pipeline.dfy` (`Pipeline`): the program's run using the corrected
  composite builder, and the two lemmas that exhibit the out-of-bounds
  accesses of the run as written.

`sin`, `sqrt` and the KissFFT transform are function parameters: no
member requires anything of them, except the lemmas that state a bound in
their `requires` (for example `-1 <= sin(x) <= 1` in `ExactBounded`). The
transform's result is copied into an output buffer of `window` entries, so
the number of bins comes from that buffer, as in the program. The
magnitude's `pow(x, 2)` is written out as a product. The random LSB draws are an
input sequence of integers, one per sample, consumed in order.

The harmonic table's second column is passed to `makeWave` as the amplitude
itself (main.cpp:225), not as a percentage of the fundamental's 315; the
model does the same (`Pipeline.Analyse` passes the pair's amplitude as is).

## Model

| member | source | states |
|---|---|---|
| `AdcConfig.AdcKeyArithmeticFitsInt` | main.cpp:10-17 | with the program's constants, `sampling * i` for every scanned bin i (main.cpp:210), the window and the samples per period all fit a 32-bit `int` |
| `AdcConfig.AdcIsValid` | main.cpp:10-18 | the program's constants form a valid configuration: 80 samples per fundamental period, sampling rate at least the window length, noise floor 0.3663 V |
| `Quantizer.Round` | main.cpp:37 | the result is within 1/2 of the input, and halfway cases go away from zero (the behaviour of `std::round` and `roundf`) |
| `Quantizer.RoundUp` | main.cpp:32-38 | a zero step returns the value unchanged; otherwise the result is an integer multiple of the step and within half a step of the value |
| `Quantizer.RoundUpNearest` | main.cpp:37 | no integer multiple of the step is nearer to the value than `roundUp`'s result |
| `Quantizer.Round4` | main.cpp:99 | `roundf(x * 10000) / 10000` is a multiple of 0.0001 within 0.00005 of x, and maps 0 to 0 |
| `HarmonicGenerator.Angle` | main.cpp:55-61 | the argument of `sin`: the phase index in degrees, `index * (360 / samples)`, converted to radians with the program's pi and multiplied by the harmonic order; phase index 0 gives angle 0 |
| `HarmonicGenerator.Exact` | main.cpp:61 | the exact value `mag * sin(position * radians)` at a phase index, before noise |
| `HarmonicGenerator.Sample` | main.cpp:61-69 | sample k of a wave: the exact value at `PhaseIndex(samples, k)` plus `stepSize` times the k-th LSB draw |
| `HarmonicGenerator.PhaseIndex` | main.cpp:51-83 | the phase index of every emitted sample lies in `[0, samples]`, and index 0 is used by the first sample only |
| `HarmonicGenerator.PhaseIndexStep` | main.cpp:52-79 | the loop's index update: after index `samples` comes 1 (reset to 0, then `i++`), otherwise the index grows by one |
| `HarmonicGenerator.PhaseIndexContinuous` | main.cpp:52-79 | sample k sits at its phase index plus a whole number of periods, so the waveform is phase-continuous across resets |
| `HarmonicGenerator.PhaseIndexPeriodic` | main.cpp:77-79 | from the second sample on, the schedule repeats every `samples` samples |
| `HarmonicGenerator.ExactBounded` | main.cpp:55-61 | if `sin` is bounded by 1, no exact sample exceeds the amplitude in magnitude |
| `HarmonicGenerator.SampleNoiseBounded` | main.cpp:61-69 | a draw in `[-lsbError, lsbError]` moves a sample at most `stepSize * lsbError` from its exact value |
| `HarmonicGenerator.ExactPartPeriodic` | main.cpp:51-79 | apart from noise, samples after the first repeat with the period of the fundamental |
| `HarmonicGenerator.Wave` | main.cpp:43-87 | the wave `makeWave` returns: `window` samples, sample k being `Sample` k; `MakeWave` is proved to return it |
| `HarmonicGenerator.MakeWave` | main.cpp:43-87 | the loop terminates and returns exactly `window` samples; sample k is the exact sinusoid value at `PhaseIndex(samples, k)` plus `stepSize * draws[k]`, with the quantized value playing no part; the result is `Wave` |
| `CompositeSignal.SumAt` | main.cpp:99 | the unary right fold `(wave[i] + ...)` over the argument pack, 0 for no waves |
| `CompositeSignal.SumAtAppend` | main.cpp:99 | the fold over the waves is additive over concatenation |
| `CompositeSignal.SumAtCommutes` | main.cpp:99 | swapping the order of the waves does not change a composite sample |
| `CompositeSignal.SumAtZero` | main.cpp:97-101 | waves that are zero at an index give a composite sample of zero there |
| `CompositeSignal.Combine` | main.cpp:92-104 | the corrected `formComplex` of two equal-length waves: the four-decimal rounding of their sample-wise sum, of the same length |
| `CompositeSignal.SumAtPair` | main.cpp:99 | the fold over a pack of two waves is the sum of their samples, so `FormComplexWindow` of two waves is `Combine` |
| `CompositeSignal.FormComplex` | main.cpp:92-104 | as written: needs every wave to have `window + 1` entries, and returns `window + 1` samples, sample i being the four-decimal rounding of the sum of the waves' entries i |
| `CompositeSignal.FormComplexWindow` | main.cpp:92-104 | corrected: accepts waves of `window` entries and returns `window` samples with the same per-sample meaning |
| `Spectrum.Fft` | main.cpp:112-145 | needs at most `window` samples (the array bound); each staged input has the sample as real part and 0 as imaginary part; the result is the `window`-entry output buffer, holding the transform's first `window` values (all of them when the transform keeps the length), so there are exactly `window` bins whatever the transform returns |
| `PeakExtractor.Magnitude` | main.cpp:199-202 | a bin's magnitude: `2 * sqrt((r / window)^2 + (i / window)^2)`, the square written as a product |
| `PeakExtractor.FreqKey` | main.cpp:210 | a bin's frequency key `(sampling * i) / window` in integer division: a whole number of Hz, non-negative for non-negative operands |
| `PeakExtractor.Kept` | main.cpp:207 | the strict noise-floor test `mag > stepSize * lsbError` |
| `PeakExtractor.FreqKeyIncreasing` | main.cpp:210 | when the sampling rate is at least the window length, the integer-division keys strictly increase with the bin index, so no two bins share a key |
| `PeakExtractor.FreqKeyRange` | main.cpp:196-210 | when the sampling rate is at least the window length, the key of every scanned bin lies strictly between 0 and half the sampling rate |
| `PeakExtractor.AdcFreqKey` | main.cpp:210 | with the program's constants bin i has the key 5 * i Hz |
| `PeakExtractor.ScannedExactly` | main.cpp:196-215 | with distinct keys (which `FreqKeyIncreasing` gives when the sampling rate is at least the window length), a scanned bin has an entry exactly when its magnitude is strictly above the noise floor, and the entry is that magnitude |
| `PeakExtractor.FindFftPeaks` | main.cpp:190-218 | scans bins `1 .. size/2 - 1`; every bin above the floor has an entry at its key, every entry is the magnitude of a scanned bin above the floor at that key, the last such bin wins a shared key; no entry is at or below the floor; with distinct keys, an entry exists exactly for the bins above the floor |
| `Pipeline.MakeWaveOutputTooShortForFormComplex` | main.cpp:223-225 | two waves of `window` samples, as `makeWave` returns them, do not have the `window + 1` entries `formComplex` reads |
| `Pipeline.FormComplexOutputOverflowsFftBuffer` | main.cpp:115-121 | any result meeting `FormComplex`'s postcondition for waves readable to index `window` fails `FitsBuffer`, the precondition of `Spectrum.Fft`: the sample at index `window` has no buffer entry |
| `Pipeline.Composite` | main.cpp:223-225 | the composite `main` builds: each harmonic of the table, in the key order in which a `std::map` is iterated, is generated from the next window of draws and combined into the running composite; the result has `window` samples |
| `Pipeline.BuildComposite` | main.cpp:224-225 | the loop over the harmonic table, with the corrected builder: the result is `Composite`, the fold that generates each harmonic from the next window of draws and combines it, rounded to four decimals, into the running composite |
| `Pipeline.Analyse` | main.cpp:220-233 | the corrected run: the composite is `Composite` of the harmonics over the fundamental generated from the first window of draws; the bins are the `window`-entry output of the transform of that composite staged as `fft` stages it; the peaks are exactly what the scan of `findFFTPeaks` builds from those bins (`ScannedUpTo` at `window / 2`): every peak above the noise floor and keyed by a scanned bin's frequency; when the sampling rate is at least the window length every frequency lies strictly between 0 and half the sampling rate |
| `Pipeline.AnalyseAdc` | main.cpp:221-233 | the corrected run with the program's constants (fundamental 315, the harmonic table): the same composite, transform and scan as `Analyse`; every reported peak is above 0.3663 V and every reported frequency is 5·j Hz for a bin j in 1 .. 399 |

## Left out

- Floating point: all arithmetic is over `real`. The `float` rounding of the constant 0.1221, single/double mixing and rounding inside the computations are not modelled.
- `sin`, `sqrt` and the KissFFT transform (`kiss_fft_alloc`, `kiss_fft`, `free`) are opaque function parameters; no property of the spectrum itself (such as recovering a pure sinusoid's peak) is proved.
- The allocation-failure branch of `fft` (main.cpp:136-141) prints and exits the process; it is not modelled.
- The global random generator (main.cpp:21-23) is replaced by an input stream of draws; its uniform distribution is not modelled, only the range `[-lsbError, lsbError]` where a lemma needs it.
- `fullFFT` (main.cpp:152-183) is unused by the program and only prints; it is not modelled.
- The printing loop of `main` (main.cpp:236-239) is console output and is not modelled.
- 32-bit `int` overflow is not modelled: `sampling * i` (main.cpp:210), `sampling / fundamentalFrequency` (main.cpp:51) and `windowCount` (main.cpp:48,75) are unbounded integers here. Other configurations could overflow in the program; at the program's constants `AdcConfig.AdcKeyArithmeticFitsInt` shows nothing does.
- Spectrum.Fft: output buffer entries beyond what the transform returns start at zero here; `kiss_fft` writes all `window` of them, which the model states only when the transform keeps the length.
- Spectrum.Fft: the input buffer entries past the last sample are uninitialised in the program; the model starts them at zero. This only matters for a composite shorter than the window, which the corrected run never produces.
- Pipeline.Analyse: models the run with the corrected builder; the run as written cannot be stated as a call sequence because its `formComplex` and `fft` calls break their bounds (see Findings).
- Pipeline.AnalyseAdc: is that corrected run with the program's constants, not the program's run as written, for the same reason.
- HarmonicGenerator.ExactPartPeriodic: states periodicity of the phase schedule from the second sample on; that index `samples` and index 0 give the same `sin` value is a property of `sin` and is not assumed.

## Findings

| source | as written | input that shows it | evidently intended | confidence | as-written member | corrected member |
|---|---|---|---|---|---|---|
| main.cpp:97 | `formComplex` loops `i <= window` and reads `wave[i]` of every argument | the first call at main.cpp:225 passes two 800-sample waves from `makeWave`; index 800 of each is read past its end | loop `i < window` and emit `window` samples | high, not executed | `Pipeline.MakeWaveOutputTooShortForFormComplex` | `CompositeSignal.FormComplexWindow` |
| main.cpp:118 | `fft` copies `complex.size()` samples into `in[window]` | the 801-sample composite from `formComplex` writes `in[800]`, one past the buffer | stage exactly `window` samples | high, not executed | `Pipeline.FormComplexOutputOverflowsFftBuffer` | `Pipeline.Analyse` |
