/** The envelope processor: a channel is cut into non-overlapping windows of
    `bracket` samples (a trailing remainder is dropped) and each window is
    reduced to one control value, by its peak, by its charge-signed mean
    magnitude, or by a `bias`-weighted blend of the two. */
module Envelope {
  import Arith
  import opened Pcm

  function Abs(x: int): nat
  {
    if x < 0 then -x else x
  }

  /** The window's net signed sum, which the source calls its charge. */
  function Sum(w: seq<int>): int
  {
    if w == [] then 0 else Sum(w[..|w| - 1]) + w[|w| - 1]
  }

  /** The sum of the magnitudes of the window's samples. */
  function AbsSum(w: seq<int>): nat
  {
    if w == [] then 0 else AbsSum(w[..|w| - 1]) + Abs(w[|w| - 1])
  }

  /** The left-to-right peak scan: start from 0 and take a sample whenever its
      magnitude is strictly larger than that of the peak so far. */
  function Peak(w: seq<int>): int
  {
    if w == [] then 0
    else
      var p := Peak(w[..|w| - 1]);
      var x := w[|w| - 1];
      if Abs(x) > Abs(p) then x else p
  }

  /** `p` is the first sample of largest magnitude in `w`, or 0 when every
      sample is 0: an independent description of what the scan selects. */
  ghost predicate IsFirstPeak(w: seq<int>, p: int)
  {
    && (forall j :: 0 <= j < |w| ==> Abs(w[j]) <= Abs(p))
    && (p == 0 || exists i :: 0 <= i < |w| && w[i] == p && forall j :: 0 <= j < i ==> Abs(w[j]) < Abs(p))
  }

  lemma {:induction false} PeakIsFirstPeak(w: seq<int>)
    ensures IsFirstPeak(w, Peak(w))
    decreases |w|
  {
    if w != [] {
      var n := |w|;
      var front := w[..n - 1];
      var p := Peak(front);
      PeakIsFirstPeak(front);
      if Abs(w[n - 1]) > Abs(p) {
        assert forall j :: 0 <= j < n - 1 ==> w[j] == front[j];
        assert w[n - 1] == Peak(w) && forall j :: 0 <= j < n - 1 ==> Abs(w[j]) < Abs(Peak(w));
      } else {
        assert forall j :: 0 <= j < n - 1 ==> w[j] == front[j];
        if p != 0 {
          var i :| 0 <= i < n - 1 && front[i] == p && forall j :: 0 <= j < i ==> Abs(front[j]) < Abs(p);
          assert w[i] == p;
        }
      }
    }
  }

  /** The scan's result is exactly the first sample of largest magnitude (0
      for an all-zero window): both directions. */
  lemma PeakCharacterized(w: seq<int>, p: int)
    ensures IsFirstPeak(w, p) <==> p == Peak(w)
  {
    PeakIsFirstPeak(w);
    var q := Peak(w);
    if IsFirstPeak(w, p) && p != 0 && q != 0 {
      var i :| 0 <= i < |w| && w[i] == p && forall j :: 0 <= j < i ==> Abs(w[j]) < Abs(p);
      var k :| 0 <= k < |w| && w[k] == q && forall j :: 0 <= j < k ==> Abs(w[j]) < Abs(q);
      assert Abs(w[k]) <= Abs(p) && Abs(w[i]) <= Abs(q);
      assert i == k;
    }
  }

  /** The peak is 0 exactly for an all-zero window; otherwise it is one of the
      window's samples, of magnitude at least that of every sample. */
  lemma PeakOfWindow(w: seq<int>)
    ensures Peak(w) == 0 <==> forall j :: 0 <= j < |w| ==> w[j] == 0
    ensures Peak(w) == 0 || Peak(w) in w
    ensures forall j :: 0 <= j < |w| ==> Abs(w[j]) <= Abs(Peak(w))
  {
    PeakIsFirstPeak(w);
  }

  /** |charge| never exceeds the sum of magnitudes. */
  lemma {:induction false} SumBound(w: seq<int>)
    ensures Abs(Sum(w)) <= AbsSum(w)
    decreases |w|
  {
    if w != [] {
      SumBound(w[..|w| - 1]);
    }
  }

  /** The sum of magnitudes is 0 exactly for an all-zero window. */
  lemma {:induction false} AbsSumZero(w: seq<int>)
    ensures AbsSum(w) == 0 <==> forall j :: 0 <= j < |w| ==> w[j] == 0
    decreases |w|
  {
    if w != [] {
      var front := w[..|w| - 1];
      AbsSumZero(front);
      assert forall j :: 0 <= j < |w| - 1 ==> w[j] == front[j];
    }
  }

  /** The mean magnitude over the bracket, negated when the charge is
      negative; not yet divided by 32767. */
  function SignedAverage(w: seq<int>, bracket: nat): real
    requires bracket >= 1
  {
    var average := AbsSum(w) as real / bracket as real;
    if Sum(w) < 0 then -average else average
  }

  /** The value of the averaged reducer for one window. */
  function AverageValue(w: seq<int>, bracket: nat): real
    requires bracket >= 1
  {
    SignedAverage(w, bracket) / 32767.0
  }

  /** The value of the peak reducer for one window. */
  function PeakValue(w: seq<int>): real
  {
    Normalize(Peak(w))
  }

  /** The blend formula: the weighted signed mean plus the weighted peak,
      divided by 32767. */
  function Mix(mean: real, peak: real, averageMult: real, peakMult: real): real
  {
    (mean * averageMult + peak * peakMult) / 32767.0
  }

  /** The value of the blended reducer for one window. */
  function BlendValue(w: seq<int>, bracket: nat, bias: real): real
    requires bracket >= 1
  {
    Mix(SignedAverage(w, bracket), Peak(w) as real, 1.0 - bias, bias)
  }

  /** The averaged value has magnitude (sum of |x|) / bracket / 32767, is
      negative exactly when the charge is, and is 0 exactly for silence. */
  lemma AverageValueMeaning(w: seq<int>, bracket: nat)
    requires bracket >= 1
    ensures var v := AverageValue(w, bracket);
      (if v < 0.0 then -v else v) == AbsSum(w) as real / bracket as real / 32767.0
    ensures AverageValue(w, bracket) < 0.0 <==> Sum(w) < 0
    ensures AverageValue(w, bracket) == 0.0 <==> forall j :: 0 <= j < |w| ==> w[j] == 0
  {
    SumBound(w);
    AbsSumZero(w);
    var a := AbsSum(w) as real / bracket as real;
    assert a >= 0.0;
    assert a == 0.0 <==> AbsSum(w) == 0;
  }

  /** The blend is the bias-weighted mix of the averaged and the peak values;
      at bias 0 it is the averaged value and at bias 1 the peak value. */
  lemma BlendMixesReducers(w: seq<int>, bracket: nat, bias: real)
    requires bracket >= 1
    ensures BlendValue(w, bracket, bias) == (1.0 - bias) * AverageValue(w, bracket) + bias * PeakValue(w)
    ensures bias == 0.0 ==> BlendValue(w, bracket, bias) == AverageValue(w, bracket)
    ensures bias == 1.0 ==> BlendValue(w, bracket, bias) == PeakValue(w)
  {
    MixScales(SignedAverage(w, bracket), Peak(w) as real, bias, AverageValue(w, bracket), PeakValue(w));
  }

  /** Dividing a mix by 32767 mixes the quotients; weights 0 and 1 pick one
      of them. */
  lemma MixScales(m: real, p: real, t: real, a: real, pv: real)
    requires a == m / 32767.0 && pv == p / 32767.0
    ensures Mix(m, p, 1.0 - t, t) == (1.0 - t) * a + t * pv
    ensures t == 0.0 ==> Mix(m, p, 1.0 - t, t) == a
    ensures t == 1.0 ==> Mix(m, p, 1.0 - t, t) == pv
  {
  }

  /** With a bias in [0, 1] the blend lies between the two reducers' values. */
  lemma BlendBetween(w: seq<int>, bracket: nat, bias: real)
    requires bracket >= 1 && 0.0 <= bias <= 1.0
    ensures var a, p, v := AverageValue(w, bracket), PeakValue(w), BlendValue(w, bracket, bias);
      (a <= p ==> a <= v <= p) && (p <= a ==> p <= v <= a)
  {
    MixBetween(SignedAverage(w, bracket), Peak(w) as real, bias);
  }

  /** A convex combination of two numbers lies between them. */
  lemma MixBetween(m: real, pk: real, t: real)
    requires 0.0 <= t <= 1.0
    ensures var a, p, v := m / 32767.0, pk / 32767.0, Mix(m, pk, 1.0 - t, t);
      (a <= p ==> a <= v <= p) && (p <= a ==> p <= v <= a)
  {
    var a, p := m / 32767.0, pk / 32767.0;
    MixScales(m, pk, t, a, p);
    var d := p - a;
    assert (1.0 - t) * a + t * p == a + t * d;
    assert t * d + (1.0 - t) * d == d;
    MulSigns(t, d);
    MulSigns(1.0 - t, d);
  }

  lemma MulSigns(x: real, y: real)
    requires x >= 0.0
    ensures y >= 0.0 ==> x * y >= 0.0
    ensures y <= 0.0 ==> x * y <= 0.0
  {
  }

  /** The non-overlapping windows of `bracket` samples, front to back; a
      trailing remainder shorter than a bracket forms no window. */
  function Windows(s: seq<int>, bracket: nat): (ws: seq<seq<int>>)
    requires bracket >= 1
    ensures |ws| == |s| / bracket
    decreases |s|
  {
    if |s| < bracket then []
    else
      Arith.DivSubOne(|s|, bracket);
      [s[..bracket]] + Windows(s[bracket..], bracket)
  }

  /** Window k is s[k * bracket .. (k + 1) * bracket]. */
  lemma {:induction false} WindowAt(s: seq<int>, bracket: nat, k: nat)
    requires bracket >= 1 && k < |s| / bracket
    ensures k * bracket + bracket <= |s|
    ensures Windows(s, bracket)[k] == s[k * bracket .. k * bracket + bracket]
    decreases k
  {
    Arith.WindowFits(|s|, bracket, k);
    if k > 0 {
      Arith.DivSubOne(|s|, bracket);
      WindowAt(s[bracket..], bracket, k - 1);
      assert (k - 1) * bracket + bracket == k * bracket;
    }
  }

  function Concat(ws: seq<seq<int>>): seq<int>
  {
    if ws == [] then [] else ws[0] + Concat(ws[1..])
  }

  /** The windows, laid end to end, are the signal minus a trailing remainder
      of fewer than `bracket` samples. */
  lemma {:induction false} WindowsCover(s: seq<int>, bracket: nat)
    requires bracket >= 1
    ensures var n := |s| / bracket * bracket;
      n <= |s| < n + bracket && Concat(Windows(s, bracket)) == s[..n]
    decreases |s|
  {
    if |s| < bracket {
      Arith.DivUnique(|s|, bracket, 0, |s|);
    } else {
      var rest := s[bracket..];
      WindowsCover(rest, bracket);
      var q := |rest| / bracket;
      var m := q * bracket;
      assert |s| / bracket == q + 1 by {
        Arith.DivSubOne(|s|, bracket);
      }
      assert |s| / bracket * bracket == m + bracket by {
        assert (q + 1) * bracket == m + bracket;
      }
      var ws := Windows(s, bracket);
      assert Concat(ws) == s[..bracket] + Concat(Windows(rest, bracket)) by {
        assert ws[1..] == Windows(rest, bracket);
      }
      assert s[..m + bracket] == s[..bracket] + rest[..m] by {
        assert m + bracket <= |s|;
      }
    }
  }

  /** A worked window: magnitudes 100, 100, 200, 50 average to 112.5 and the
      charge 150 is positive, so the value is 112.5 / 32767. */
  lemma AveragedExample()
    ensures AverageValue([100, -100, 200, -50], 4) == 112.5 / 32767.0
  {
    var w1, w2, w3, w4 := [100], [100, -100], [100, -100, 200], [100, -100, 200, -50];
    assert w1[..0] == [] && w2[..1] == w1 && w3[..2] == w2 && w4[..3] == w3;
    assert Sum(w1) == 100 && AbsSum(w1) == 100;
    assert Sum(w2) == 0 && AbsSum(w2) == 200;
    assert Sum(w3) == 200 && AbsSum(w3) == 400;
    assert Sum(w4) == 150 && AbsSum(w4) == 450;
  }

  /** Samples of equal magnitude and opposite sign: the first one is kept. */
  lemma PeakTieExample()
    ensures Peak([-300, 300]) == -300
    ensures Peak([300, -300]) == 300
  {
    assert [-300, 300][..1] == [-300] && [300, -300][..1] == [300];
    assert [-300][..0] == [] && [300][..0] == [];
  }

  /** The peak reducer's output: one normalised peak per window. */
  function PeakTrack(s: seq<int>, bracket: nat): seq<real>
    requires bracket >= 1
  {
    var ws := Windows(s, bracket);
    seq(|ws|, i requires 0 <= i < |ws| => PeakValue(ws[i]))
  }

  /** The averaged reducer's output. */
  function AverageTrack(s: seq<int>, bracket: nat): seq<real>
    requires bracket >= 1
  {
    var ws := Windows(s, bracket);
    seq(|ws|, i requires 0 <= i < |ws| => AverageValue(ws[i], bracket))
  }

  /** The blended reducer's output. */
  function BlendTrack(s: seq<int>, bracket: nat, bias: real): seq<real>
    requires bracket >= 1
  {
    var ws := Windows(s, bracket);
    seq(|ws|, i requires 0 <= i < |ws| => BlendValue(ws[i], bracket, bias))
  }

  /** What the dispatch on `bias` returns. */
  function ProcessedTrack(s: seq<int>, bracket: nat, bias: real): seq<real>
    requires bracket >= 1
  {
    if bias == 0.0 then AverageTrack(s, bracket)
    else if bias == 1.0 then PeakTrack(s, bracket)
    else BlendTrack(s, bracket, bias)
  }

  /** All three reducers produce |s| / bracket values, value i taken from the
      window s[i * bracket .. (i + 1) * bracket]. */
  lemma TracksAt(s: seq<int>, bracket: nat, bias: real, i: nat)
    requires bracket >= 1 && i < |s| / bracket
    ensures |PeakTrack(s, bracket)| == |s| / bracket
    ensures |AverageTrack(s, bracket)| == |s| / bracket
    ensures |BlendTrack(s, bracket, bias)| == |s| / bracket
    ensures i * bracket + bracket <= |s|
    ensures PeakTrack(s, bracket)[i] == PeakValue(s[i * bracket .. i * bracket + bracket])
    ensures AverageTrack(s, bracket)[i] == AverageValue(s[i * bracket .. i * bracket + bracket], bracket)
    ensures BlendTrack(s, bracket, bias)[i] == BlendValue(s[i * bracket .. i * bracket + bracket], bracket, bias)
  {
    WindowAt(s, bracket, i);
    var w := Windows(s, bracket)[i];
    assert PeakTrack(s, bracket)[i] == PeakValue(w);
    assert AverageTrack(s, bracket)[i] == AverageValue(w, bracket);
    assert BlendTrack(s, bracket, bias)[i] == BlendValue(w, bracket, bias);
  }

  /** All three reducers produce |s| / bracket values, for every signal. */
  lemma TrackLengths(s: seq<int>, bracket: nat, bias: real)
    requires bracket >= 1
    ensures |PeakTrack(s, bracket)| == |s| / bracket
    ensures |AverageTrack(s, bracket)| == |s| / bracket
    ensures |BlendTrack(s, bracket, bias)| == |s| / bracket
    ensures |ProcessedTrack(s, bracket, bias)| == |s| / bracket
  {
  }

  /** Dispatching on bias 0 and 1 gives the same track as always blending:
      the dedicated reducers are the blend's end points. */
  lemma ProcessedIsBlend(s: seq<int>, bracket: nat, bias: real)
    requires bracket >= 1
    ensures ProcessedTrack(s, bracket, bias) == BlendTrack(s, bracket, bias)
  {
    var ws := Windows(s, bracket);
    forall i | 0 <= i < |ws|
      ensures ProcessedTrack(s, bracket, bias)[i] == BlendTrack(s, bracket, bias)[i]
    {
      BlendMixesReducers(ws[i], bracket, bias);
    }
  }

  /** The inner scan of the peak reducer over one window: the first sample
      of largest magnitude, starting from 0. */
  method ScanPeak(signal: seq<int>, startIndex: nat, bracket: nat) returns (outValue: int)
    requires startIndex + bracket <= |signal|
    ensures outValue == Peak(signal[startIndex .. startIndex + bracket])
  {
    outValue := 0;
    for j := 0 to bracket
      invariant outValue == Peak(signal[startIndex .. startIndex + j])
    {
      var inValue := signal[startIndex + j];
      assert signal[startIndex .. startIndex + j + 1][..j] == signal[startIndex .. startIndex + j];
      if Abs(inValue) > Abs(outValue) {
        outValue := inValue;
      }
    }
  }

  /** The peak reducer's loop over windows. */
  method GetSignalPeaks(signal: seq<int>, bracket: nat) returns (output: seq<real>)
    requires bracket >= 1
    ensures output == PeakTrack(signal, bracket)
  {
    output := [];
    var startIndex := 0;
    var count := |signal| / bracket;
    for k := 0 to count
      invariant startIndex == k * bracket
      invariant |output| == k
      invariant forall i :: 0 <= i < k ==> output[i] == PeakValue(Windows(signal, bracket)[i])
    {
      WindowAt(signal, bracket, k);
      var outValue := ScanPeak(signal, startIndex, bracket);
      output := output + [outValue as real / 32767.0];
      startIndex := startIndex + bracket;
      assert startIndex == (k + 1) * bracket;
    }
  }

  /** One window of the averaged reducer: the signed sum `charge` and the
      magnitude sum `average`, then the mean magnitude over the bracket,
      divided by 32767 and negated for a negative charge. */
  method AverageWindow(signal: seq<int>, startIndex: nat, bracket: nat) returns (outValue: real)
    requires bracket >= 1 && startIndex + bracket <= |signal|
    ensures outValue == AverageValue(signal[startIndex .. startIndex + bracket], bracket)
  {
    var average := 0;
    var charge := 0;
    for j := 0 to bracket
      invariant charge == Sum(signal[startIndex .. startIndex + j])
      invariant average == AbsSum(signal[startIndex .. startIndex + j])
    {
      var inValue := signal[startIndex + j];
      assert signal[startIndex .. startIndex + j + 1][..j] == signal[startIndex .. startIndex + j];
      charge := charge + inValue;
      average := average + Abs(inValue);
    }
    AverageFromParts(signal[startIndex .. startIndex + bracket], bracket, charge, average);
    outValue := average as real / bracket as real;
    outValue := outValue / 32767.0;
    if charge < 0 {
      outValue := outValue * -1.0;
    }
  }

  /** The averaged reducer's loop over windows. */
  method GetAveragedSignal(signal: seq<int>, bracket: nat) returns (output: seq<real>)
    requires bracket >= 1
    ensures output == AverageTrack(signal, bracket)
  {
    output := [];
    var startIndex := 0;
    var count := |signal| / bracket;
    for k := 0 to count
      invariant startIndex == k * bracket
      invariant |output| == k
      invariant forall i :: 0 <= i < k ==> output[i] == AverageValue(Windows(signal, bracket)[i], bracket)
    {
      WindowAt(signal, bracket, k);
      var outValue := AverageWindow(signal, startIndex, bracket);
      output := output + [outValue];
      startIndex := startIndex + bracket;
      assert startIndex == (k + 1) * bracket;
    }
  }

  lemma AverageFromParts(w: seq<int>, bracket: nat, charge: int, average: int)
    requires bracket >= 1
    requires charge == Sum(w) && average == AbsSum(w)
    ensures var value := average as real / bracket as real / 32767.0;
      (if charge < 0 then value * -1.0 else value) == AverageValue(w, bracket)
  {
  }

  /** The single pass of the blended reducer over one window: peak, charge
      and magnitude sum. */
  method ScanWindow(signal: seq<int>, startIndex: nat, bracket: nat) returns (peak: int, charge: int, average: int)
    requires startIndex + bracket <= |signal|
    ensures peak == Peak(signal[startIndex .. startIndex + bracket])
    ensures charge == Sum(signal[startIndex .. startIndex + bracket])
    ensures average == AbsSum(signal[startIndex .. startIndex + bracket])
  {
    peak := 0;
    average := 0;
    charge := 0;
    for j := 0 to bracket
      invariant charge == Sum(signal[startIndex .. startIndex + j])
      invariant average == AbsSum(signal[startIndex .. startIndex + j])
      invariant peak == Peak(signal[startIndex .. startIndex + j])
    {
      var inValue := signal[startIndex + j];
      assert signal[startIndex .. startIndex + j + 1][..j] == signal[startIndex .. startIndex + j];
      charge := charge + inValue;
      average := average + Abs(inValue);
      if Abs(inValue) > Abs(peak) {
        peak := inValue;
      }
    }
  }

  /** One window of the blended reducer: the scan, then the weighted mix of
      the signed mean and the peak. */
  method BlendWindow(signal: seq<int>, startIndex: nat, bracket: nat, bias: real, averageMult: real, peakMult: real)
    returns (outValue: real)
    requires bracket >= 1 && startIndex + bracket <= |signal|
    requires averageMult == 1.0 - bias && peakMult == bias
    ensures outValue == BlendValue(signal[startIndex .. startIndex + bracket], bracket, bias)
  {
    var peak, charge, average := ScanWindow(signal, startIndex, bracket);
    var mean := average as real / bracket as real;
    if charge < 0 {
      mean := mean * -1.0;
    }
    BlendOfParts(signal[startIndex .. startIndex + bracket], bracket, bias, charge, average, mean, peak);
    outValue := Mix(mean, peak as real, averageMult, peakMult);
  }

  /** The signed mean and the peak of a window determine its blended value. */
  lemma BlendOfParts(w: seq<int>, bracket: nat, bias: real, charge: int, average: int, mean: real, peak: int)
    requires bracket >= 1
    requires charge == Sum(w) && average == AbsSum(w) && peak == Peak(w)
    requires mean == if charge < 0 then average as real / bracket as real * -1.0 else average as real / bracket as real
    ensures Mix(mean, peak as real, 1.0 - bias, bias) == BlendValue(w, bracket, bias)
  {
    assert mean == SignedAverage(w, bracket);
  }

  /** The blended reducer's loop over windows. */
  method GetBlendedSignal(signal: seq<int>, bracket: nat, bias: real) returns (output: seq<real>)
    requires bracket >= 1
    ensures output == BlendTrack(signal, bracket, bias)
  {
    var averageMult := 1.0 - bias;
    var peakMult := bias;
    output := [];
    var startIndex := 0;
    var count := |signal| / bracket;
    for k := 0 to count
      invariant startIndex == k * bracket
      invariant |output| == k
      invariant forall i :: 0 <= i < k ==> output[i] == BlendValue(Windows(signal, bracket)[i], bracket, bias)
    {
      WindowAt(signal, bracket, k);
      var outValue := BlendWindow(signal, startIndex, bracket, bias, averageMult, peakMult);
      output := output + [outValue];
      startIndex := startIndex + bracket;
      assert startIndex == (k + 1) * bracket;
    }
  }

  /** The dispatch on `bias`: exactly 0 selects the averaged reducer, exactly
      1 the peak reducer, anything else the blend. */
  method GetProcessedSignal(signal: seq<int>, bracket: nat, bias: real) returns (output: seq<real>)
    requires bracket >= 1
    ensures bias == 0.0 ==> output == AverageTrack(signal, bracket)
    ensures bias == 1.0 ==> output == PeakTrack(signal, bracket)
    ensures bias != 0.0 && bias != 1.0 ==> output == BlendTrack(signal, bracket, bias)
  {
    if bias == 0.0 {
      output := GetAveragedSignal(signal, bracket);
    } else if bias == 1.0 {
      output := GetSignalPeaks(signal, bracket);
    } else {
      output := GetBlendedSignal(signal, bracket, bias);
    }
  }

  // The numpy int16 absolute value, which leaves -32768 negative, and the
  // reducers as the source computes them with it.

  /** `abs` of a numpy int16 value: -32768 has no positive counterpart. */
  function Int16Abs(x: int): int
  {
    if x == MIN_SAMPLE then MIN_SAMPLE else Abs(x)
  }

  /** The peak scan with numpy's int16 `abs`. */
  function PeakAsWritten(w: seq<int>): int
  {
    if w == [] then 0
    else
      var p := PeakAsWritten(w[..|w| - 1]);
      var x := w[|w| - 1];
      if Int16Abs(x) > Int16Abs(p) then x else p
  }

  /** The as-written scan can never select a -32768 sample. */
  lemma {:induction false} PeakAsWrittenNeverMin(w: seq<int>)
    ensures PeakAsWritten(w) != MIN_SAMPLE
    decreases |w|
  {
    if w != [] {
      PeakAsWrittenNeverMin(w[..|w| - 1]);
    }
  }

  /** A window holding just -32768 peaks at 0 as written, at -32768 as meant. */
  lemma PeakAsWrittenMissesMin()
    ensures PeakAsWritten([MIN_SAMPLE]) == 0
    ensures Peak([MIN_SAMPLE]) == MIN_SAMPLE
    ensures !IsFirstPeak([MIN_SAMPLE], PeakAsWritten([MIN_SAMPLE]))
  {
    assert [MIN_SAMPLE][..0] == [];
    PeakCharacterized([MIN_SAMPLE], 0);
  }

  function AbsSumAsWritten(w: seq<int>): int
  {
    if w == [] then 0 else AbsSumAsWritten(w[..|w| - 1]) + Int16Abs(w[|w| - 1])
  }

  /** The averaged value with numpy's int16 `abs` in the magnitude sum. */
  function AverageValueAsWritten(w: seq<int>, bracket: nat): real
    requires bracket >= 1
  {
    var average := AbsSumAsWritten(w) as real / bracket as real / 32767.0;
    if Sum(w) < 0 then -average else average
  }

  /** A window holding just -32768 has a negative charge, yet the as-written
      averaged value comes out positive; the intended one is negative. */
  lemma AverageAsWrittenFlipsSign()
    ensures Sum([MIN_SAMPLE]) < 0
    ensures AverageValueAsWritten([MIN_SAMPLE], 1) > 0.0
    ensures AverageValue([MIN_SAMPLE], 1) < 0.0
  {
    assert [MIN_SAMPLE][..0] == [];
    assert AbsSumAsWritten([MIN_SAMPLE]) == MIN_SAMPLE;
    assert Sum([MIN_SAMPLE]) == MIN_SAMPLE;
  }
}
