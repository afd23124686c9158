/** The curve emitter: a sequence of control values becomes a list of
    (time, value) control points on a scalar custom property, and every
    `keyframes`-th value becomes a randomly scaled 3-vector on a vector
    custom property. The host's keyframe store is not modelled; the points
    that would be written are returned instead. */
module Curves {
  import opened Pcm

  /** The data path under which a custom property is keyed: `["name"]`. */
  function DataPath(name: string): string
  {
    "[\"" + name + "\"]"
  }

  datatype Point = Point(time: real, value: real)

  datatype Vec3 = Vec3(x: real, y: real, z: real)

  datatype VectorPoint = VectorPoint(time: real, value: Vec3)

  /** The control points written under one data path. */
  datatype FloatTrack = FloatTrack(path: string, points: seq<Point>)

  datatype VectorTrack = VectorTrack(path: string, points: seq<VectorPoint>)

  /** The frame at which scalar value k is keyed: `keyframes` values share
      one video frame, starting at `offset`. */
  function KeyTime(k: nat, keyframes: int, offset: int): real
    requires keyframes >= 1
  {
    offset as real + k as real / keyframes as real
  }

  /** Each component of the random triple multiplied by the value. */
  function Scale(r: Vec3, v: real): Vec3
  {
    Vec3(r.x * v, r.y * v, r.z * v)
  }

  function ScalarPoints(values: seq<real>, keyframes: int, offset: int): seq<Point>
    requires keyframes >= 1
  {
    seq(|values|, k requires 0 <= k < |values| => Point(KeyTime(k, keyframes, offset), values[k]))
  }

  function VectorPoints(values: seq<real>, offset: int, noise: nat -> Vec3): seq<VectorPoint>
  {
    seq(|values|, k requires 0 <= k < |values| => VectorPoint(offset as real + k as real, Scale(noise(k), values[k])))
  }

  lemma SpanStep(k: nat, keyframes: int, span: real)
    requires keyframes >= 1 && span == 1.0 / keyframes as real
    ensures k as real * span == k as real / keyframes as real
  {
  }

  /** The scalar keying loop: value k is keyed at offset + k / keyframes. */
  method AnimateFloatProperty(property: string, signal: seq<real>, keyframes: int, offset: int)
    returns (track: FloatTrack)
    requires keyframes >= 1
    ensures track.path == DataPath(property)
    ensures |track.points| == |signal|
    ensures forall k :: 0 <= k < |signal| ==>
      track.points[k] == Point(offset as real + k as real / keyframes as real, signal[k])
    ensures track.points == ScalarPoints(signal, keyframes, offset)
  {
    var path := DataPath(property);
    var keyframeSpan := 1.0 / keyframes as real;
    var t := 0.0 + offset as real;
    var points := [];
    for k := 0 to |signal|
      invariant |points| == k
      invariant t == offset as real + k as real * keyframeSpan
      invariant forall i :: 0 <= i < k ==> points[i] == Point(KeyTime(i, keyframes, offset), signal[i])
    {
      SpanStep(k, keyframes, keyframeSpan);
      points := points + [Point(t, signal[k])];
      t := t + keyframeSpan;
    }
    track := FloatTrack(path, points);
  }

  /** The vector keying loop: item k is the k-th random triple scaled by the
      k-th value, keyed at offset + k. */
  method AnimateFloatArrayProperty(property: string, signal: seq<real>, offset: int, noise: nat -> Vec3)
    returns (track: VectorTrack)
    ensures track.path == DataPath(property)
    ensures |track.points| == |signal|
    ensures forall k :: 0 <= k < |signal| ==>
      track.points[k] == VectorPoint(offset as real + k as real, Scale(noise(k), signal[k]))
    ensures track.points == VectorPoints(signal, offset, noise)
  {
    var path := DataPath(property);
    var t := 0.0 + offset as real;
    var points := [];
    for k := 0 to |signal|
      invariant |points| == k
      invariant t == offset as real + k as real
      invariant forall i :: 0 <= i < k ==> points[i] == VectorPoint(offset as real + i as real, Scale(noise(i), signal[i]))
    {
      var randomizedVec := Scale(noise(k), signal[k]);
      points := points + [VectorPoint(t, randomizedVec)];
      t := t + 1.0;
    }
    track := VectorTrack(path, points);
  }

  /** Scalar keys are strictly increasing in time, 1 / keyframes apart, and
      every `keyframes` of them fill one video frame. */
  lemma KeyTimeCadence(k: nat, keyframes: int, offset: int)
    requires keyframes >= 1
    ensures KeyTime(0, keyframes, offset) == offset as real
    ensures KeyTime(k + 1, keyframes, offset) - KeyTime(k, keyframes, offset) == 1.0 / keyframes as real
    ensures KeyTime(k, keyframes, offset) < KeyTime(k + 1, keyframes, offset)
    ensures KeyTime(k + keyframes, keyframes, offset) == KeyTime(k, keyframes, offset) + 1.0
  {
    var kf := keyframes as real;
    assert (k + 1) as real / kf == k as real / kf + 1.0 / kf;
    assert (k + keyframes) as real / kf == k as real / kf + kf / kf;
  }

  /** Vector item k sits on the same frame as scalar value k * keyframes and
      scales that same value: the vector track samples the scalar track once
      per video frame. */
  lemma VectorFollowsScalar(values: seq<real>, keyframes: int, offset: int, noise: nat -> Vec3, k: nat)
    requires keyframes >= 1 && k < |Slice(values, 0, keyframes)|
    ensures k * keyframes < |values|
    ensures var scalar := ScalarPoints(values, keyframes, offset)[k * keyframes];
      var vector := VectorPoints(Slice(values, 0, keyframes), offset, noise)[k];
      && vector.time == scalar.time
      && vector.value == Scale(noise(k), scalar.value)
  {
    SliceAt(values, 0, keyframes, k);
    var kf := keyframes as real;
    assert (k * keyframes) as real == k as real * kf;
    CancelDivision(k as real, kf);
  }

  lemma CancelDivision(x: real, y: real)
    requires y > 0.0
    ensures x * y / y == x
  {
  }

  function RealAbs(x: real): real
  {
    if x < 0.0 then -x else x
  }

  /** With random components drawn from [-1, 1], no component of a vector
      item exceeds the magnitude of the value that scales it. */
  lemma ScaleBounded(r: Vec3, v: real)
    requires -1.0 <= r.x <= 1.0 && -1.0 <= r.y <= 1.0 && -1.0 <= r.z <= 1.0
    ensures RealAbs(Scale(r, v).x) <= RealAbs(v)
    ensures RealAbs(Scale(r, v).y) <= RealAbs(v)
    ensures RealAbs(Scale(r, v).z) <= RealAbs(v)
  {
    var s := Scale(r, v);
    ProductBounded(r.x, v, s.x);
    ProductBounded(r.y, v, s.y);
    ProductBounded(r.z, v, s.z);
  }

  /** A factor within [-1, 1] does not enlarge the magnitude of a product. */
  lemma ProductBounded(u: real, v: real, product: real)
    requires -1.0 <= u <= 1.0 && product == u * v
    ensures RealAbs(product) <= RealAbs(v)
  {
    var a := RealAbs(u);
    var b := RealAbs(v);
    assert RealAbs(product) == a * b by {
      if u < 0.0 { assert u * v == -(a * v); }
      if v < 0.0 { assert a * v == -(a * b); }
    }
    assert b - a * b == (1.0 - a) * b;
    NonNegativeProduct(1.0 - a, b);
  }

  lemma NonNegativeProduct(x: real, y: real)
    requires x >= 0.0 && y >= 0.0
    ensures x * y >= 0.0
  {
  }
}
