/** The peak extractor: magnitudes of the lower half of the spectrum, the
    noise-floor filter and the bin-to-frequency map. */
module PeakExtractor {
  import opened AdcConfig
  import opened Spectrum

  /** The single-sided magnitude of a bin: twice the square root of the sum
      of the squares of its parts divided by the window length. */
  function Magnitude(cfg: Config, c: Cpx, sqrt: real -> real): real
    requires cfg.window >= 1
  {
    var re := c.r / cfg.window as real;
    var im := c.i / cfg.window as real;
    2.0 * sqrt(re * re + im * im)
  }

  /** The frequency of bin i: (sampling * i) / window in integer division,
      then converted to the map's key type. */
  function FreqKey(cfg: Config, i: int): (f: real)
    requires cfg.window >= 1
    ensures f.Floor as real == f
    ensures cfg.sampling >= 0 && i >= 0 ==> f >= 0.0
  {
    ((cfg.sampling * i) / cfg.window) as real
  }

  /** Bin i survives the noise floor: its magnitude is strictly above
      stepSize * lsbError. */
  predicate Kept(cfg: Config, bins: seq<Cpx>, sqrt: real -> real, i: int)
    requires cfg.window >= 1 && 0 <= i < |bins|
  {
    Magnitude(cfg, bins[i], sqrt) > cfg.Threshold()
  }

  lemma MulMonotone(a: int, b: int, w: int)
    requires w >= 0
    ensures a <= b ==> a * w <= b * w
  {
    assert b * w - a * w == (b - a) * w;
  }

  lemma DivAtLeast(x: int, w: int, c: int)
    requires w >= 1 && x >= c * w
    ensures x / w >= c
  {
    var q := x / w;
    assert x == q * w + x % w;
    MulMonotone(q + 1, c, w);
    assert (q + 1) * w == q * w + w;
  }

  lemma DivExact(c: int, w: int)
    requires w >= 1
    ensures (c * w) / w == c
  {
    var q := (c * w) / w;
    assert c * w == q * w + (c * w) % w;
    MulMonotone(q + 1, c, w);
    MulMonotone(c + 1, q, w);
    assert (q + 1) * w == q * w + w;
    assert (c + 1) * w == c * w + w;
  }

  lemma DivFloor(x: int, w: int)
    requires w >= 1
    ensures (x / w) * w <= x
  {
    assert x == (x / w) * w + x % w;
  }

  /** With at least one sample per second per bin, bin keys strictly
      increase with the bin index, so no two bins share a frequency. */
  lemma FreqKeyIncreasing(cfg: Config, i: int, j: int)
    requires cfg.Valid() && cfg.sampling >= cfg.window
    requires 0 <= i < j
    ensures FreqKey(cfg, i) < FreqKey(cfg, j)
  {
    var s, w := cfg.sampling, cfg.window;
    var q := (s * i) / w;
    DivFloor(s * i, w);
    MulMonotone(i + 1, j, s);
    assert (i + 1) * s == s * i + s;
    assert j * s == s * j;
    assert s * j >= (q + 1) * w;
    DivAtLeast(s * j, w, q + 1);
  }

  /** The keys of the scanned bins 1 .. window/2 - 1 lie strictly between 0
      and half the sampling rate. */
  lemma FreqKeyRange(cfg: Config, i: int)
    requires cfg.Valid() && cfg.sampling >= cfg.window
    requires 1 <= i < cfg.window / 2
    ensures 0.0 < FreqKey(cfg, i) < cfg.sampling as real / 2.0
  {
    var s, w := cfg.sampling, cfg.window;
    MulMonotone(1, i, s);
    DivAtLeast(s * i, w, 1);
    var q := (s * i) / w;
    DivFloor(s * i, w);
    MulMonotone(2 * i, w - 1, s);
    assert (2 * i) * s == 2 * (s * i);
    assert (w - 1) * s == s * w - s;
    MulMonotone(s, 2 * q, w);
    assert (2 * q) * w == 2 * (q * w);
    assert s * w == w * s;
    assert 2 * q < s;
  }

  /** With the program's constants bin i is keyed by 5 * i Hz. */
  lemma AdcFreqKey(i: int)
    requires i >= 0
    ensures FreqKey(Adc, i) == (5 * i) as real
  {
    DivExact(5 * i, 800);
    assert 4000 * i == (5 * i) * 800;
  }

  /** Every surviving bin below n has an entry at its key. */
  ghost predicate Covers(cfg: Config, bins: seq<Cpx>, sqrt: real -> real, n: int, peaks: map<real, real>)
    requires cfg.window >= 1 && n <= |bins|
  {
    forall j :: 1 <= j < n && Kept(cfg, bins, sqrt, j) ==> FreqKey(cfg, j) in peaks
  }

  /** Every entry comes from a surviving bin below n: its key is that bin's
      frequency and its value that bin's magnitude. */
  ghost predicate Sound(cfg: Config, bins: seq<Cpx>, sqrt: real -> real, n: int, peaks: map<real, real>)
    requires cfg.window >= 1 && n <= |bins|
  {
    forall f :: f in peaks ==>
      exists j :: 1 <= j < n && FreqKey(cfg, j) == f && Kept(cfg, bins, sqrt, j)
                  && peaks[f] == Magnitude(cfg, bins[j], sqrt)
  }

  /** No surviving bin after j below n shares j's key. */
  ghost predicate LastWithKey(cfg: Config, bins: seq<Cpx>, sqrt: real -> real, n: int, j: int)
    requires cfg.window >= 1 && n <= |bins| && 0 <= j
  {
    forall l :: j < l < n && Kept(cfg, bins, sqrt, l) ==> FreqKey(cfg, l) != FreqKey(cfg, j)
  }

  /** The last surviving bin with a given key below n decides its value. */
  ghost predicate LastWins(cfg: Config, bins: seq<Cpx>, sqrt: real -> real, n: int, peaks: map<real, real>)
    requires cfg.window >= 1 && n <= |bins|
  {
    forall j :: 1 <= j < n && Kept(cfg, bins, sqrt, j) && LastWithKey(cfg, bins, sqrt, n, j) ==>
      FreqKey(cfg, j) in peaks && peaks[FreqKey(cfg, j)] == Magnitude(cfg, bins[j], sqrt)
  }

  /** What the scan of bins 1 .. n-1 has built. */
  ghost predicate ScannedUpTo(cfg: Config, bins: seq<Cpx>, sqrt: real -> real, n: int, peaks: map<real, real>)
    requires cfg.window >= 1 && n <= |bins|
  {
    && Covers(cfg, bins, sqrt, n, peaks)
    && Sound(cfg, bins, sqrt, n, peaks)
    && LastWins(cfg, bins, sqrt, n, peaks)
  }

  /** Scanning a surviving bin stores it at its key. */
  lemma ScanKept(cfg: Config, bins: seq<Cpx>, sqrt: real -> real, i: int, peaks: map<real, real>)
    requires cfg.window >= 1 && 1 <= i < |bins|
    requires ScannedUpTo(cfg, bins, sqrt, i, peaks) && Kept(cfg, bins, sqrt, i)
    ensures ScannedUpTo(cfg, bins, sqrt, i + 1, peaks[FreqKey(cfg, i) := Magnitude(cfg, bins[i], sqrt)])
  {
    var key, mag := FreqKey(cfg, i), Magnitude(cfg, bins[i], sqrt);
    var next := peaks[key := mag];
    forall f | f in next
      ensures exists j :: 1 <= j < i + 1 && FreqKey(cfg, j) == f && Kept(cfg, bins, sqrt, j)
                          && next[f] == Magnitude(cfg, bins[j], sqrt)
    {
      if f == key {
        assert FreqKey(cfg, i) == f && next[f] == Magnitude(cfg, bins[i], sqrt);
      } else {
        var j :| 1 <= j < i && FreqKey(cfg, j) == f && Kept(cfg, bins, sqrt, j)
                 && peaks[f] == Magnitude(cfg, bins[j], sqrt);
        assert next[f] == peaks[f];
      }
    }
    forall j | 1 <= j < i + 1 && Kept(cfg, bins, sqrt, j) && LastWithKey(cfg, bins, sqrt, i + 1, j)
      ensures FreqKey(cfg, j) in next && next[FreqKey(cfg, j)] == Magnitude(cfg, bins[j], sqrt)
    {
      if j < i {
        assert FreqKey(cfg, i) != FreqKey(cfg, j);
        assert LastWithKey(cfg, bins, sqrt, i, j);
      }
    }
  }

  /** Scanning a bin at or below the noise floor changes nothing. */
  lemma ScanDropped(cfg: Config, bins: seq<Cpx>, sqrt: real -> real, i: int, peaks: map<real, real>)
    requires cfg.window >= 1 && 1 <= i < |bins|
    requires ScannedUpTo(cfg, bins, sqrt, i, peaks) && !Kept(cfg, bins, sqrt, i)
    ensures ScannedUpTo(cfg, bins, sqrt, i + 1, peaks)
  {
    forall f | f in peaks
      ensures exists j :: 1 <= j < i + 1 && FreqKey(cfg, j) == f && Kept(cfg, bins, sqrt, j)
                          && peaks[f] == Magnitude(cfg, bins[j], sqrt)
    {
      var j :| 1 <= j < i && FreqKey(cfg, j) == f && Kept(cfg, bins, sqrt, j)
               && peaks[f] == Magnitude(cfg, bins[j], sqrt);
    }
    forall j | 1 <= j < i + 1 && Kept(cfg, bins, sqrt, j) && LastWithKey(cfg, bins, sqrt, i + 1, j)
      ensures FreqKey(cfg, j) in peaks && peaks[FreqKey(cfg, j)] == Magnitude(cfg, bins[j], sqrt)
    {
      assert LastWithKey(cfg, bins, sqrt, i, j);
    }
  }

  /** When keys are distinct (at least as many samples per second as the
      window has samples), a scanned bin has an entry exactly when it
      survives the noise floor, and the entry is its magnitude. */
  lemma {:induction false} ScannedExactly(cfg: Config, bins: seq<Cpx>, sqrt: real -> real, n: int,
                                          peaks: map<real, real>, i: int)
    requires cfg.Valid() && cfg.sampling >= cfg.window && n <= |bins|
    requires ScannedUpTo(cfg, bins, sqrt, n, peaks)
    requires 1 <= i < n
    ensures FreqKey(cfg, i) in peaks <==> Kept(cfg, bins, sqrt, i)
    ensures Kept(cfg, bins, sqrt, i) ==> peaks[FreqKey(cfg, i)] == Magnitude(cfg, bins[i], sqrt)
  {
    forall l | i < l < n && Kept(cfg, bins, sqrt, l)
      ensures FreqKey(cfg, l) != FreqKey(cfg, i)
    {
      FreqKeyIncreasing(cfg, i, l);
    }
    assert LastWithKey(cfg, bins, sqrt, n, i);
    if FreqKey(cfg, i) in peaks {
      var j :| 1 <= j < n && FreqKey(cfg, j) == FreqKey(cfg, i) && Kept(cfg, bins, sqrt, j)
               && peaks[FreqKey(cfg, i)] == Magnitude(cfg, bins[j], sqrt);
      if j < i {
        FreqKeyIncreasing(cfg, j, i);
      } else if j > i {
        FreqKeyIncreasing(cfg, i, j);
      }
    }
  }

  /** findFFTPeaks: bins 1 .. |bins|/2 - 1 are scanned; a bin is stored at
      its frequency key exactly when its magnitude exceeds the noise floor,
      a later bin overwriting an earlier one with the same key. */
  method FindFftPeaks(cfg: Config, bins: seq<Cpx>, sqrt: real -> real) returns (peaks: map<real, real>)
    requires cfg.Valid()
    ensures ScannedUpTo(cfg, bins, sqrt, |bins| / 2, peaks)
    ensures forall f :: f in peaks ==> peaks[f] > cfg.Threshold()
    ensures cfg.sampling >= cfg.window ==>
              forall i :: 1 <= i < |bins| / 2 ==>
                (FreqKey(cfg, i) in peaks <==> Kept(cfg, bins, sqrt, i))
                && (Kept(cfg, bins, sqrt, i) ==> peaks[FreqKey(cfg, i)] == Magnitude(cfg, bins[i], sqrt))
  {
    peaks := map[];
    var i := 1;
    while i < |bins| / 2
      invariant 1 <= i && (i <= |bins| / 2 || i == 1)
      invariant ScannedUpTo(cfg, bins, sqrt, if i <= |bins| then i else |bins|, peaks)
    {
      var mag := Magnitude(cfg, bins[i], sqrt);
      if mag > cfg.stepSize * cfg.lsbError as real {
        var freq := FreqKey(cfg, i);
        ScanKept(cfg, bins, sqrt, i, peaks);
        peaks := peaks[freq := mag];
      } else {
        ScanDropped(cfg, bins, sqrt, i, peaks);
      }
      i := i + 1;
    }
    assert ScannedUpTo(cfg, bins, sqrt, |bins| / 2, peaks);
    forall f | f in peaks
      ensures peaks[f] > cfg.Threshold()
    {
      var j :| 1 <= j < |bins| / 2 && FreqKey(cfg, j) == f && Kept(cfg, bins, sqrt, j)
               && peaks[f] == Magnitude(cfg, bins[j], sqrt);
    }
    if cfg.sampling >= cfg.window {
      forall i | 1 <= i < |bins| / 2
        ensures FreqKey(cfg, i) in peaks <==> Kept(cfg, bins, sqrt, i)
        ensures Kept(cfg, bins, sqrt, i) ==> peaks[FreqKey(cfg, i)] == Magnitude(cfg, bins[i], sqrt)
      {
        ScannedExactly(cfg, bins, sqrt, |bins| / 2, peaks, i);
      }
    }
  }
}
