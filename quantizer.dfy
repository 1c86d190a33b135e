/**
 * The colour-bias quantiser of the trainer's dataset preprocessing: the bucket
 * boundaries built from `dim_bias`, the Bucketize step function that maps a
 * channel value to the number of boundaries at or below it, and the bias label
 * stacked from the three quantised channels of a colour map.
 */
module Quantizer {
  import opened Results

  // ---------------------------------------------------------------------------
  // Python integer arithmetic and `range`
  // ---------------------------------------------------------------------------

  /** Python's floor division `a // b`; Dafny's `/` is Euclidean, so a
      negative divisor is handled by flipping both signs. */
  function FloorDiv(a: int, b: int): (q: int)
    requires b != 0
    ensures b > 0 ==> q * b <= a < q * b + b
    ensures b < 0 ==> q * b + b < a <= q * b
  {
    if b > 0 then a / b else (-a) / (-b)
  }

  /** Python's `list(range(start, stop, step))`. */
  function Range(start: int, stop: int, step: int): seq<int>
    requires step != 0
    decreases if step > 0 then stop - start else start - stop
  {
    if (0 < step && start < stop) || (step < 0 && stop < start) then
      [start] + Range(start + step, stop, step)
    else
      []
  }

  /** Python's slice `s[1:]`, which is empty for an empty list. */
  function DropFirst(s: seq<int>): seq<int> {
    if s == [] then [] else s[1..]
  }

  lemma {:induction false} RangeAscending(start: int, stop: int, step: int)
    requires 0 < step
    ensures var r := Range(start, stop, step);
      (forall i :: 0 <= i < |r| ==> r[i] == start + i * step) &&
      (start < stop ==> (|r| - 1) * step < stop - start <= |r| * step) &&
      (stop <= start ==> r == [])
    decreases stop - start
  {
    if start < stop {
      var r, t := Range(start, stop, step), Range(start + step, stop, step);
      RangeAscending(start + step, stop, step);
      assert r == [start] + t;
      forall i | 0 < i < |r|
        ensures r[i] == start + i * step
      {
        assert r[i] == t[i - 1];
        assert (i - 1) * step + step == i * step;
      }
      assert |r| * step == |t| * step + step;
    }
  }

  // ---------------------------------------------------------------------------
  // Small facts about multiplication and division
  // ---------------------------------------------------------------------------

  lemma MulMonotone(a: int, b: int, s: int)
    requires a <= b && 0 <= s
    ensures a * s <= b * s
  {
    assert b * s - a * s == (b - a) * s;
  }

  lemma DivModUnique(x: int, s: int, q: int, r: int)
    requires 0 < s && 0 <= r < s && x == q * s + r
    ensures x / s == q && x % s == r
  {
    var q', r' := x / s, x % s;
    assert x == q' * s + r';
    if q' < q {
      MulMonotone(q' + 1, q, s);
      assert false;
    } else if q < q' {
      MulMonotone(q + 1, q', s);
      assert false;
    }
  }

  // ---------------------------------------------------------------------------
  // Bucket boundaries: `list(range(0, 256, 256 // dim_bias))[1:]`
  // ---------------------------------------------------------------------------

  /** The boundaries list handed to Bucketize. A zero `dim_bias` divides by
      zero, a `dim_bias` above 256 makes the range step zero (both raise); a
      negative one gives a negative step and so an empty range. */
  function Boundaries(dimBias: int): (r: Result<seq<int>>)
    ensures r.Err? <==> dimBias == 0 || 256 < dimBias
    ensures dimBias == 0 ==> r == Err(ZeroDivision)
    ensures 256 < dimBias ==> r == Err(ZeroRangeStep)
    ensures dimBias < 0 ==> r == Ok([])
  {
    if dimBias == 0 then
      Err(ZeroDivision)
    else
      var step := FloorDiv(256, dimBias);
      if step == 0 then Err(ZeroRangeStep) else Ok(DropFirst(Range(0, 256, step)))
  }

  /** The spacing `256 // dim_bias` of the boundaries, for a usable `dim_bias`. */
  function Spacing(dimBias: int): (s: int)
    requires 1 <= dimBias <= 256
    ensures 1 <= s <= 256
    ensures dimBias * s <= 256 < dimBias * s + dimBias
  {
    256 / dimBias
  }

  /** The number of buckets Bucketize can return: one more than the boundaries. */
  function BucketCount(dimBias: int): (n: int)
    requires 1 <= dimBias <= 256
    ensures n >= 1
  {
    |Boundaries(dimBias).value| + 1
  }

  predicate StrictlyIncreasing(s: seq<int>) {
    forall i, j :: 0 <= i < j < |s| ==> s[i] < s[j]
  }

  predicate NonDecreasing(s: seq<int>) {
    forall i, j :: 0 <= i <= j < |s| ==> s[i] <= s[j]
  }

  /** The boundaries are the multiples s, 2s, ... of the spacing, and there are
      as many as fit strictly below 256. */
  lemma BoundariesShape(dimBias: int)
    requires 1 <= dimBias <= 256
    ensures Boundaries(dimBias).Ok?
    ensures var b, s := Boundaries(dimBias).value, Spacing(dimBias);
      (forall i :: 0 <= i < |b| ==> b[i] == (i + 1) * s) &&
      |b| * s < 256 <= (|b| + 1) * s
  {
    var s := Spacing(dimBias);
    assert FloorDiv(256, dimBias) == s;
    var r := Range(0, 256, s);
    RangeAscending(0, 256, s);
    assert Boundaries(dimBias) == Ok(r[1..]);
  }

  /** Strictly increasing and strictly inside (0, 256). */
  lemma BoundariesIncreasing(dimBias: int)
    requires 1 <= dimBias <= 256
    ensures var b := Boundaries(dimBias).value;
      StrictlyIncreasing(b) && NonDecreasing(b) &&
      forall i :: 0 <= i < |b| ==> 0 < b[i] < 256
  {
    var b, s := Boundaries(dimBias).value, Spacing(dimBias);
    BoundariesShape(dimBias);
    forall i, j | 0 <= i < j < |b|
      ensures b[i] < b[j]
    {
      MulMonotone(i + 2, j + 1, s);
    }
    forall i | 0 <= i < |b|
      ensures 0 < b[i] < 256
    {
      MulMonotone(1, i + 1, s);
      MulMonotone(i + 1, |b|, s);
    }
  }

  /** A value is a boundary exactly when it is a positive multiple of the
      spacing below 256. */
  lemma BoundariesAreMultiples(dimBias: int)
    requires 1 <= dimBias <= 256
    ensures var b, s := Boundaries(dimBias).value, Spacing(dimBias);
      forall v :: v in b <==> 0 < v < 256 && v % s == 0
  {
    var b, s := Boundaries(dimBias).value, Spacing(dimBias);
    BoundariesShape(dimBias);
    BoundariesIncreasing(dimBias);
    forall v | v in b
      ensures 0 < v < 256 && v % s == 0
    {
      var i :| 0 <= i < |b| && b[i] == v;
      DivModUnique(v, s, i + 1, 0);
    }
    forall v | 0 < v < 256 && v % s == 0
      ensures v in b
    {
      var k := v / s;
      DivModUnique(v, s, k, 0);
      if k < 1 {
        MulMonotone(k, 0, s);
        assert false;
      }
      if |b| + 1 <= k {
        MulMonotone(|b| + 1, k, s);
        assert false;
      }
      assert b[k - 1] == v;
    }
  }

  /** There are ceil(256 / s) - 1 boundaries. */
  lemma BoundaryCount(dimBias: int)
    requires 1 <= dimBias <= 256
    ensures var s := Spacing(dimBias);
      |Boundaries(dimBias).value| == (256 + s - 1) / s - 1
  {
    var b, s := Boundaries(dimBias).value, Spacing(dimBias);
    BoundariesShape(dimBias);
    var n := |b| + 1;
    DivModUnique(256 + s - 1, s, n, 256 + s - 1 - n * s);
  }

  /** `dim_bias` buckets come out exactly when `dim_bias` divides 256;
      otherwise there are more. */
  lemma ExactBucketsIffDivides(dimBias: int)
    requires 1 <= dimBias <= 256
    ensures BucketCount(dimBias) >= dimBias
    ensures BucketCount(dimBias) == dimBias <==> 256 % dimBias == 0
  {
    var b, s := Boundaries(dimBias).value, Spacing(dimBias);
    BoundariesShape(dimBias);
    var n := |b| + 1;
    if n < dimBias {
      MulMonotone(n, dimBias - 1, s);
      assert false;
    }
    if 256 % dimBias == 0 {
      DivModUnique(256, dimBias, s, 256 - dimBias * s);
      assert dimBias * s == 256;
      if dimBias < n {
        MulMonotone(dimBias, n - 1, s);
        assert false;
      }
    }
    if n == dimBias {
      DivModUnique(256, dimBias, s, 0);
    }
  }

  /** The default `dim_bias` of 16 gives the 15 boundaries 16, 32, ..., 240, so 16 buckets. */
  lemma DefaultBoundaries()
    ensures var b := Boundaries(16).value;
      |b| == 15 && (forall i :: 0 <= i < 15 ==> b[i] == 16 * (i + 1)) && BucketCount(16) == 16
  {
    BoundariesShape(16);
  }

  /** `dim_bias` = 3 does not divide 256: boundaries 85, 170, 255 give four
      buckets, and a channel value of 255 is labelled 3, outside [0, dim_bias). */
  lemma NonDividingDimBias()
    ensures Boundaries(3) == Ok([85, 170, 255])
    ensures BucketCount(3) == 4
    ensures Bucketize(Boundaries(3).value, 255.0) == 3
  {
    BoundariesShape(3);
    var b := Boundaries(3).value;
    assert |b| == 3;
    assert b == [85, 170, 255];
  }

  // ---------------------------------------------------------------------------
  // Bucketize
  // ---------------------------------------------------------------------------

  /** `tf.raw_ops.Bucketize` on one value: the number of boundaries at or below `x`. */
  function Bucketize(boundaries: seq<int>, x: real): (k: nat)
    ensures k <= |boundaries|
  {
    if boundaries == [] then 0
    else (if boundaries[0] as real <= x then 1 else 0) + Bucketize(boundaries[1..], x)
  }

  /** On sorted boundaries the bucket is bracketed by its two neighbouring
      boundaries: the lower one is at or below `x`, the upper one is above. */
  lemma {:induction false} BucketizeBracket(boundaries: seq<int>, x: real)
    requires NonDecreasing(boundaries)
    ensures var k := Bucketize(boundaries, x);
      (0 < k ==> boundaries[k - 1] as real <= x) &&
      (k < |boundaries| ==> x < boundaries[k] as real)
  {
    if boundaries != [] {
      var rest := boundaries[1..];
      BucketizeBracket(rest, x);
    }
  }

  /** The bracket determines the bucket: Bucketize is the upper-bound search. */
  lemma BucketizeIsUpperBound(boundaries: seq<int>, x: real, k: int)
    requires NonDecreasing(boundaries)
    requires 0 <= k <= |boundaries|
    ensures Bucketize(boundaries, x) == k <==>
      (0 < k ==> boundaries[k - 1] as real <= x) && (k < |boundaries| ==> x < boundaries[k] as real)
  {
    BucketizeBracket(boundaries, x);
  }

  /** A larger value never falls in a lower bucket. */
  lemma {:induction false} BucketizeMonotone(boundaries: seq<int>, x: real, y: real)
    requires x <= y
    ensures Bucketize(boundaries, x) <= Bucketize(boundaries, y)
  {
    if boundaries != [] {
      BucketizeMonotone(boundaries[1..], x, y);
    }
  }

  /** A value exactly on a boundary goes to the bucket above it. */
  lemma OnBoundaryGoesUp(boundaries: seq<int>, i: int)
    requires StrictlyIncreasing(boundaries)
    requires 0 <= i < |boundaries|
    ensures Bucketize(boundaries, boundaries[i] as real) == i + 1
  {
    assert NonDecreasing(boundaries);
    BucketizeIsUpperBound(boundaries, boundaries[i] as real, i + 1);
  }

  /** With the trainer's boundaries a value in [0, 256) lands in bucket k with
      k*s <= x < (k+1)*s, so 0 maps to 0 and no bucket reaches BucketCount. */
  lemma QuantizedBucket(dimBias: int, x: real)
    requires 1 <= dimBias <= 256
    requires 0.0 <= x < 256.0
    ensures var k, s := Bucketize(Boundaries(dimBias).value, x), Spacing(dimBias);
      k < BucketCount(dimBias) &&
      (k * s) as real <= x < ((k + 1) * s) as real
  {
    var b, s := Boundaries(dimBias).value, Spacing(dimBias);
    BoundariesShape(dimBias);
    BoundariesIncreasing(dimBias);
    BucketizeBracket(b, x);
    var k := Bucketize(b, x);
    if 0 < k {
      assert b[k - 1] == k * s;
    }
    if k < |b| {
      assert b[k] == (k + 1) * s;
    }
  }

  /** On integer values the bucket is `v // s`. */
  lemma QuantizedInteger(dimBias: int, v: int)
    requires 1 <= dimBias <= 256
    requires 0 <= v < 256
    ensures Bucketize(Boundaries(dimBias).value, v as real) == v / Spacing(dimBias)
  {
    var k, s := Bucketize(Boundaries(dimBias).value, v as real), Spacing(dimBias);
    QuantizedBucket(dimBias, v as real);
    assert k * s <= v < (k + 1) * s;
    assert 0 <= v - k * s < s;
    DivModUnique(v, s, k, v - k * s);
  }

  /** The worked example: `dim_bias` = 4, boundaries 64, 128, 192. */
  lemma FourBucketsExample()
    ensures Boundaries(4) == Ok([64, 128, 192])
    ensures Bucketize([64, 128, 192], 0.0) == 0
    ensures Bucketize([64, 128, 192], 64.0) == 1
    ensures Bucketize([64, 128, 192], 255.0) == 3
  {
    BoundariesShape(4);
    var b := Boundaries(4).value;
    assert |b| == 3;
    assert b == [64, 128, 192];
  }

  // ---------------------------------------------------------------------------
  // The bias label of a colour map
  // ---------------------------------------------------------------------------

  datatype Channel = Red | Green | Blue

  /** One pixel's three channel values. */
  datatype Rgb<T> = Rgb(r: T, g: T, b: T) {
    /** `pixel[c]`, with c = 0, 1, 2 for red, green, blue. */
    function At(c: Channel): T {
      match c
      case Red => r
      case Green => g
      case Blue => b
    }
  }

  predicate SameShape<A, B>(p: seq<seq<A>>, q: seq<seq<B>>) {
    |p| == |q| && forall i :: 0 <= i < |p| ==> |p[i]| == |q[i]|
  }

  /** `colormap[..., c]`: the plane of one channel. */
  function ChannelPlane(colormap: seq<seq<Rgb<real>>>, c: Channel): seq<seq<real>>
  {
    seq(|colormap|, i requires 0 <= i < |colormap| =>
      seq(|colormap[i]|, j requires 0 <= j < |colormap[i]| => colormap[i][j].At(c)))
  }

  /** The `_quantize` lambda: Bucketize applied to every value of a plane. */
  function Quantize(boundaries: seq<int>, plane: seq<seq<real>>): seq<seq<nat>>
  {
    seq(|plane|, i requires 0 <= i < |plane| =>
      seq(|plane[i]|, j requires 0 <= j < |plane[i]| => Bucketize(boundaries, plane[i][j])))
  }

  /** `tf.stack([r, g, b], axis=-1)` for three planes of one shape. */
  function Stack<T>(r: seq<seq<T>>, g: seq<seq<T>>, b: seq<seq<T>>): seq<seq<Rgb<T>>>
    requires SameShape(r, g) && SameShape(r, b)
  {
    seq(|r|, i requires 0 <= i < |r| =>
      seq(|r[i]|, j requires 0 <= j < |r[i]| => Rgb(r[i][j], g[i][j], b[i][j])))
  }

  /** The bias label of `_preprocess`: the three channels quantised with the
      same boundaries and stacked back into one map. */
  function BiasLabel(boundaries: seq<int>, colormap: seq<seq<Rgb<real>>>): seq<seq<Rgb<nat>>> {
    var r := Quantize(boundaries, ChannelPlane(colormap, Red));
    var g := Quantize(boundaries, ChannelPlane(colormap, Green));
    var b := Quantize(boundaries, ChannelPlane(colormap, Blue));
    Stack(r, g, b)
  }

  /** Each channel of the bias is the bucket of the same channel of the
      colour map, at every position. */
  lemma BiasLabelChannels(boundaries: seq<int>, colormap: seq<seq<Rgb<real>>>)
    ensures var bias := BiasLabel(boundaries, colormap);
      SameShape(colormap, bias) &&
      forall i: int, j: int, c: Channel :: 0 <= i < |bias| && 0 <= j < |bias[i]| ==>
        bias[i][j].At(c) == Bucketize(boundaries, colormap[i][j].At(c))
  {
    var bias: seq<seq<Rgb<nat>>> := BiasLabel(boundaries, colormap);
    forall i: int, j: int, c: Channel | 0 <= i < |bias| && 0 <= j < |bias[i]|
      ensures bias[i][j].At(c) == Bucketize(boundaries, colormap[i][j].At(c))
    {
      match c
      case Red => assert bias[i][j].r == Quantize(boundaries, ChannelPlane(colormap, Red))[i][j];
      case Green => assert bias[i][j].g == Quantize(boundaries, ChannelPlane(colormap, Green))[i][j];
      case Blue => assert bias[i][j].b == Quantize(boundaries, ChannelPlane(colormap, Blue))[i][j];
    }
  }

  /** A channel's bias depends only on that channel of the colour map. */
  lemma ChannelIndependence(boundaries: seq<int>, m1: seq<seq<Rgb<real>>>, m2: seq<seq<Rgb<real>>>, c: Channel)
    requires SameShape(m1, m2)
    requires forall i, j :: 0 <= i < |m1| && 0 <= j < |m1[i]| ==> m1[i][j].At(c) == m2[i][j].At(c)
    ensures var l1, l2 := BiasLabel(boundaries, m1), BiasLabel(boundaries, m2);
      SameShape(l1, l2) &&
      forall i, j :: 0 <= i < |l1| && 0 <= j < |l1[i]| ==> l1[i][j].At(c) == l2[i][j].At(c)
  {
    BiasLabelChannels(boundaries, m1);
    BiasLabelChannels(boundaries, m2);
  }

  /** With a usable `dim_bias` and channel values in [0, 256), every bias
      entry is a bucket below BucketCount that brackets its channel value. */
  lemma BiasLabelRange(dimBias: int, colormap: seq<seq<Rgb<real>>>)
    requires 1 <= dimBias <= 256
    requires forall i: int, j: int, c: Channel :: 0 <= i < |colormap| && 0 <= j < |colormap[i]| ==>
      0.0 <= colormap[i][j].At(c) < 256.0
    ensures var bias, s := BiasLabel(Boundaries(dimBias).value, colormap), Spacing(dimBias);
      forall i: int, j: int, c: Channel :: 0 <= i < |bias| && 0 <= j < |bias[i]| ==>
        bias[i][j].At(c) < BucketCount(dimBias) &&
        (bias[i][j].At(c) * s) as real <= colormap[i][j].At(c) < ((bias[i][j].At(c) + 1) * s) as real
  {
    var b := Boundaries(dimBias).value;
    var bias: seq<seq<Rgb<nat>>> := BiasLabel(b, colormap);
    BiasLabelChannels(b, colormap);
    forall i: int, j: int, c: Channel | 0 <= i < |bias| && 0 <= j < |bias[i]|
      ensures bias[i][j].At(c) < BucketCount(dimBias)
      ensures (bias[i][j].At(c) * Spacing(dimBias)) as real <= colormap[i][j].At(c)
      ensures colormap[i][j].At(c) < ((bias[i][j].At(c) + 1) * Spacing(dimBias)) as real
    {
      QuantizedBucket(dimBias, colormap[i][j].At(c));
    }
  }
}
