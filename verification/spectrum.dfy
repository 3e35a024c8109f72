/** The spectral transformer: staging the composite waveform into the
    fixed-size complex input buffer, running the external forward
    transform over it, and returning the fixed-size output buffer. */
module Spectrum {

  /** One complex bin or sample, with real part r and imaginary part i. */
  datatype Cpx = Cpx(r: real, i: real)

  /** The samples fit the transform's input buffer of window entries. */
  predicate FitsBuffer(complex: seq<real>, window: nat)
  {
    |complex| <= window
  }

  /** The staged input buffer and the output buffer of one fft call: the
      first |complex| input entries hold the samples as real parts and zero
      imaginary parts, the rest are zero; the window output entries hold
      the transform's values, zero where it produced none. */
  ghost predicate IsTransformOf(bins: seq<Cpx>, staged: seq<Cpx>, complex: seq<real>, window: nat,
                                transform: seq<Cpx> -> seq<Cpx>)
  {
    && |staged| == window && |bins| == window
    && (forall k :: 0 <= k < |complex| && k < window ==> staged[k] == Cpx(complex[k], 0.0))
    && (forall k :: |complex| <= k < window ==> staged[k] == Cpx(0.0, 0.0))
    && (forall k :: 0 <= k < window && k < |transform(staged)| ==> bins[k] == transform(staged)[k])
    && (forall k :: |transform(staged)| <= k < window ==> bins[k] == Cpx(0.0, 0.0))
  }

  /** fft: the first |complex| entries of the window-sized input buffer get
      the samples as real parts and zero imaginary parts; the transform
      writes the window-sized output buffer, which is returned whole. The
      input buffer holds window entries, so at most window samples fit.
      Buffer entries that nothing writes start out as zero here. */
  method Fft(complex: seq<real>, window: nat, transform: seq<Cpx> -> seq<Cpx>)
    returns (bins: seq<Cpx>, ghost staged: seq<Cpx>)
    requires FitsBuffer(complex, window)
    ensures |staged| == window && |bins| == window
    ensures IsTransformOf(bins, staged, complex, window, transform)
    ensures |transform(staged)| == window ==> bins == transform(staged)
  {
    var input := new Cpx[window](_ => Cpx(0.0, 0.0));
    var i := 0;
    while i < |complex|
      invariant 0 <= i <= |complex|
      invariant forall k :: 0 <= k < i ==> input[k] == Cpx(complex[k], 0.0)
      invariant forall k :: i <= k < window ==> input[k] == Cpx(0.0, 0.0)
    {
      input[i] := Cpx(complex[i], 0.0);
      i := i + 1;
    }
    staged := input[..];
    var transformed := transform(input[..]);
    var output := new Cpx[window](k => if 0 <= k < |transformed| then transformed[k] else Cpx(0.0, 0.0));
    bins := output[..];
  }
}
