/** Signed 16-bit PCM samples, their normalisation to floating point, and
    Python's extended slice `s[start::step]`, which the animator uses both to
    de-interleave one channel and to decimate a channel by a stride. */
module Pcm {
  import Arith

  const MIN_SAMPLE: int := -32768
  const MAX_SAMPLE: int := 32767

  /** One sample of a 16-bit PCM buffer. */
  type Sample = x: int | MIN_SAMPLE <= x <= MAX_SAMPLE

  /** A sample divided by 32767; -32768 is not special-cased. */
  function Normalize(x: int): real
  {
    x as real / 32767.0
  }

  /** Normalisation keeps the sign, sends 0 to 0, is undone by scaling by
      32767, and maps every sample into [-32768/32767, 1]. */
  lemma NormalizeRange(x: Sample)
    ensures -32768.0 / 32767.0 <= Normalize(x) <= 1.0
    ensures Normalize(x) == 0.0 <==> x == 0
    ensures Normalize(x) < 0.0 <==> x < 0
    ensures Normalize(x) * 32767.0 == x as real
  {
  }

  /** Every sample of `s` normalised, position by position. */
  function Normalized(s: seq<int>): seq<real>
  {
    seq(|s|, i requires 0 <= i < |s| => Normalize(s[i]))
  }

  /** The loop of the operator's sample converter: one normalised value is
      appended per input sample, in order. */
  method Int2Float(input: seq<int>) returns (output: seq<real>)
    ensures |output| == |input|
    ensures forall i :: 0 <= i < |input| ==> output[i] == Normalize(input[i])
  {
    output := [];
    for i := 0 to |input|
      invariant |output| == i
      invariant forall j :: 0 <= j < i ==> output[j] == Normalize(input[j])
    {
      output := output + [Normalize(input[i])];
    }
  }

  /** Python's `s[start::step]` for a non-negative start and a positive step:
      s[start], s[start + step], s[start + 2 * step], ... while in range. */
  function Slice<T>(s: seq<T>, start: nat, step: nat): seq<T>
    requires step >= 1
    decreases |s| - start
  {
    if start >= |s| then [] else [s[start]] + Slice(s, start + step, step)
  }

  /** The slice has ceil((|s| - start) / step) elements, none when the start
      is past the end. */
  lemma {:induction false} SliceLength<T>(s: seq<T>, start: nat, step: nat)
    requires step >= 1
    ensures |Slice(s, start, step)| == if start >= |s| then 0 else (|s| - start + step - 1) / step
    decreases |s| - start
  {
    if start < |s| {
      var x := |s| - start + step - 1;
      SliceLength(s, start + step, step);
      if start + step >= |s| {
        Arith.DivUnique(x, step, 1, x - step);
      } else {
        Arith.DivSubOne(x, step);
      }
    }
  }

  /** Element j of the slice is s[start + j * step]. */
  lemma {:induction false} SliceAt<T>(s: seq<T>, start: nat, step: nat, j: nat)
    requires step >= 1 && j < |Slice(s, start, step)|
    ensures start + j * step < |s|
    ensures Slice(s, start, step)[j] == s[start + j * step]
    decreases j
  {
    if j > 0 {
      SliceAt(s, start + step, step, j - 1);
      assert start + step + (j - 1) * step == start + j * step;
    }
  }

  /** Conversely, every position start + j * step inside `s` is element j of
      the slice, so the slice keeps exactly those samples. */
  lemma {:induction false} SliceCovers<T>(s: seq<T>, start: nat, step: nat, j: nat)
    requires step >= 1 && start + j * step < |s|
    ensures j < |Slice(s, start, step)|
    ensures Slice(s, start, step)[j] == s[start + j * step]
    decreases j
  {
    if j > 0 {
      var k := j - 1;
      assert start + step + k * step == start + j * step by {
        assert j * step == k * step + step;
      }
      SliceCovers(s, start + step, step, k);
      assert Slice(s, start, step) == [s[start]] + Slice(s, start + step, step);
    }
  }

  /** Normalising commutes with slicing: the raw decimation path may be read
      either way round. */
  lemma {:induction false} NormalizedSlice(s: seq<int>, start: nat, step: nat)
    requires step >= 1
    ensures Normalized(Slice(s, start, step)) == Slice(Normalized(s), start, step)
    decreases |s| - start
  {
    if start < |s| {
      NormalizedSlice(s, start + step, step);
    }
  }
}
