/** The composite signal builder: the sample-wise sum of several harmonic
    waves, rounded to four decimal places. */
module CompositeSignal {
  import opened Quantizer

  /** Every wave has at least n entries, so indices 0 .. n-1 can be read. */
  predicate AllReadable(waves: seq<seq<real>>, n: nat)
  {
    forall w :: w in waves ==> n <= |w|
  }

  /** The fold (wave[i] + ...) over the argument pack, from the first wave. */
  function SumAt(waves: seq<seq<real>>, i: nat): real
    requires AllReadable(waves, i + 1)
    decreases |waves|
  {
    if waves == [] then 0.0 else waves[0][i] + SumAt(waves[1..], i)
  }

  /** Summing a concatenation sums the two parts. */
  lemma {:induction false} SumAtAppend(a: seq<seq<real>>, b: seq<seq<real>>, i: nat)
    requires AllReadable(a, i + 1) && AllReadable(b, i + 1)
    ensures AllReadable(a + b, i + 1)
    ensures SumAt(a + b, i) == SumAt(a, i) + SumAt(b, i)
    decreases |a|
  {
    if a == [] {
      assert a + b == b;
    } else {
      assert (a + b)[1..] == a[1..] + b;
      SumAtAppend(a[1..], b, i);
    }
  }

  /** The order in which waves are passed does not change the sum. */
  lemma SumAtCommutes(a: seq<seq<real>>, b: seq<seq<real>>, i: nat)
    requires AllReadable(a, i + 1) && AllReadable(b, i + 1)
    ensures AllReadable(a + b, i + 1) && AllReadable(b + a, i + 1)
    ensures Round4(SumAt(a + b, i)) == Round4(SumAt(b + a, i))
  {
    SumAtAppend(a, b, i);
    SumAtAppend(b, a, i);
  }

  /** Waves that are all zero at index i sum to zero there. */
  lemma {:induction false} SumAtZero(waves: seq<seq<real>>, i: nat)
    requires AllReadable(waves, i + 1)
    requires forall w :: w in waves ==> w[i] == 0.0
    ensures Round4(SumAt(waves, i)) == 0.0
    decreases |waves|
  {
    if waves != [] {
      assert waves[0] in waves;
      SumAtZero(waves[1..], i);
    }
  }

  /** formComplex as written: indices 0 .. window inclusive are read from
      every wave, so each needs window + 1 entries, and window + 1 sums are
      emitted, each within 0.00005 of the exact sum. */
  method FormComplex(waves: seq<seq<real>>, window: nat) returns (out: seq<real>)
    requires |waves| >= 1 && AllReadable(waves, window + 1)
    ensures |out| == window + 1
    ensures forall i :: 0 <= i <= window ==> out[i] == Round4(SumAt(waves, i))
    ensures forall i :: 0 <= i <= window ==> Abs(out[i] - SumAt(waves, i)) <= 1.0 / 20000.0
  {
    out := [];
    var i := 0;
    while i <= window
      invariant 0 <= i <= window + 1
      invariant |out| == i
      invariant forall k :: 0 <= k < i ==> out[k] == Round4(SumAt(waves, k))
    {
      var value := Round4(SumAt(waves, i));
      out := out + [value];
      i := i + 1;
    }
  }

  /** The corrected builder: indices 0 .. window - 1 only, so waves of
      exactly window entries are accepted and window sums are emitted. */
  method FormComplexWindow(waves: seq<seq<real>>, window: nat) returns (out: seq<real>)
    requires |waves| >= 1 && AllReadable(waves, window)
    ensures |out| == window
    ensures forall i :: 0 <= i < window ==> out[i] == Round4(SumAt(waves, i))
    ensures forall i :: 0 <= i < window ==> Abs(out[i] - SumAt(waves, i)) <= 1.0 / 20000.0
  {
    out := [];
    var i := 0;
    while i < window
      invariant 0 <= i <= window
      invariant |out| == i
      invariant forall k :: 0 <= k < i ==> out[k] == Round4(SumAt(waves, k))
    {
      var value := Round4(SumAt(waves, i));
      out := out + [value];
      i := i + 1;
    }
  }

  /** The corrected formComplex of two waves of equal length: the
      four-decimal rounding of their sample-wise sum. */
  function Combine(a: seq<real>, b: seq<real>): (c: seq<real>)
    requires |a| == |b|
    ensures |c| == |a|
  {
    seq(|a|, k requires 0 <= k < |a| => Round4(a[k] + b[k]))
  }

  /** Two waves fold to the sum of their samples. */
  lemma SumAtPair(a: seq<real>, b: seq<real>, i: nat)
    requires i < |a| && i < |b|
    ensures AllReadable([a, b], i + 1)
    ensures SumAt([a, b], i) == a[i] + b[i]
  {
    assert [a, b][1..] == [b];
    assert [b][1..] == [];
    assert SumAt([b], i) == b[i] + SumAt([], i);
    assert SumAt([a, b], i) == a[i] + SumAt([b], i);
  }
}
