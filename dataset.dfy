/**
 * The trainer's dataset pipeline: `_preprocess` turns one stored image and
 * its class label into the normalised image, the class label and the bias label of
 * its colour map; the two splits are sliced, preprocessed and batched.
 */
module Dataset {
  import opened Results
  import opened Quantizer

  /** A stored image: uint8 channel values, one Rgb pixel per position. */
  type RawImage = seq<seq<Rgb<int>>>

  /** A float32 image. */
  type Image = seq<seq<Rgb<real>>>

  /** A bias label: one bucket per channel per colour-map position. */
  type BiasMap = seq<seq<Rgb<nat>>>

  /** What `_preprocess` returns for one stored sample. */
  datatype Sample = Sample(image: Image, classLabel: int, bias: BiasMap)

  /** One element of a batched dataset: consecutive samples. */
  datatype Batch = Batch(samples: seq<Sample>)

  // ---------------------------------------------------------------------------
  // _preprocess
  // ---------------------------------------------------------------------------

  function PixelToFloat(p: Rgb<int>): Rgb<real> {
    Rgb(p.r as real, p.g as real, p.b as real)
  }

  function PixelScaled(p: Rgb<real>): Rgb<real> {
    Rgb(p.r / 255.0, p.g / 255.0, p.b / 255.0)
  }

  /** `tf.cast(image, tf.float32)`. */
  function ToFloat(raw: RawImage): Image
  {
    seq(|raw|, i requires 0 <= i < |raw| =>
      seq(|raw[i]|, j requires 0 <= j < |raw[i]| => PixelToFloat(raw[i][j])))
  }

  /** `image / 255.0`. */
  function Normalize(image: Image): Image
  {
    seq(|image|, i requires 0 <= i < |image| =>
      seq(|image[i]|, j requires 0 <= j < |image[i]| => PixelScaled(image[i][j])))
  }

  predicate PixelsWithin(image: Image, lo: real, hi: real) {
    forall i: int, j: int, c: Channel :: 0 <= i < |image| && 0 <= j < |image[i]| ==>
      lo <= image[i][j].At(c) <= hi
  }

  predicate IsUint8Image(raw: RawImage) {
    forall i: int, j: int, c: Channel :: 0 <= i < |raw| && 0 <= j < |raw[i]| ==>
      0 <= raw[i][j].At(c) <= 255
  }

  /** `_preprocess(image, label)`. The resize to the 14-by-14 colour map is a
      library call and is given as `resize`. */
  function Preprocess(boundaries: seq<int>, resize: Image -> Image, raw: RawImage, classLabel: int): Sample {
    var image := ToFloat(raw);
    var colormap := resize(image);
    Sample(Normalize(image), classLabel, BiasLabel(boundaries, colormap))
  }

  /** A preprocessed sample keeps its class label and the shape of its image, scales
      uint8 values into [0, 1], and labels every colour-map channel with its
      bucket; with a usable `dim_bias` and a colour map in [0, 256) every
      bucket is below BucketCount. */
  lemma PreprocessedSample(dimBias: int, resize: Image -> Image, raw: RawImage, classLabel: int)
    requires 1 <= dimBias <= 256
    requires IsUint8Image(raw)
    requires forall i: int, j: int, c: Channel :: 0 <= i < |resize(ToFloat(raw))| && 0 <= j < |resize(ToFloat(raw))[i]| ==>
      0.0 <= resize(ToFloat(raw))[i][j].At(c) < 256.0
    ensures var s := Preprocess(Boundaries(dimBias).value, resize, raw, classLabel);
      s.classLabel == classLabel &&
      SameShape(raw, s.image) &&
      PixelsWithin(s.image, 0.0, 1.0) &&
      SameShape(resize(ToFloat(raw)), s.bias) &&
      forall i: int, j: int, c: Channel :: 0 <= i < |s.bias| && 0 <= j < |s.bias[i]| ==>
        s.bias[i][j].At(c) < BucketCount(dimBias) &&
        s.bias[i][j].At(c) == Bucketize(Boundaries(dimBias).value, resize(ToFloat(raw))[i][j].At(c))
  {
    var b := Boundaries(dimBias).value;
    var image := ToFloat(raw);
    var s := Preprocess(b, resize, raw, classLabel);
    BiasLabelChannels(b, resize(image));
    BiasLabelRange(dimBias, resize(image));
    forall i: int, j: int, c: Channel | 0 <= i < |s.image| && 0 <= j < |s.image[i]|
      ensures 0.0 <= s.image[i][j].At(c) <= 1.0
    {
      assert s.image[i][j] == PixelScaled(PixelToFloat(raw[i][j]));
      assert 0 <= raw[i][j].At(c) <= 255;
      match c
      case Red => assert s.image[i][j].r == raw[i][j].r as real / 255.0;
      case Green => assert s.image[i][j].g == raw[i][j].g as real / 255.0;
      case Blue => assert s.image[i][j].b == raw[i][j].b as real / 255.0;
    }
  }

  // ---------------------------------------------------------------------------
  // from_tensor_slices, map and batch
  // ---------------------------------------------------------------------------

  /** `.batch(size)`: consecutive groups of `size` samples, the last one
      shorter when `size` does not divide the number of samples. */
  function Batches(samples: seq<Sample>, size: int): seq<Batch>
    requires 0 < size
    decreases |samples|
  {
    if samples == [] then []
    else if |samples| <= size then [Batch(samples)]
    else [Batch(samples[..size])] + Batches(samples[size..], size)
  }

  /** The samples of the batches, in order. */
  function Samples(batches: seq<Batch>): seq<Sample> {
    if batches == [] then [] else batches[0].samples + Samples(batches[1..])
  }

  /** Batching keeps every sample, in order. */
  lemma {:induction false} BatchesKeepSamples(samples: seq<Sample>, size: int)
    requires 0 < size
    ensures Samples(Batches(samples, size)) == samples
    decreases |samples|
  {
    var bs := Batches(samples, size);
    if samples == [] {
    } else if |samples| <= size {
      assert Samples(bs) == samples + Samples([]);
    } else {
      BatchesKeepSamples(samples[size..], size);
      assert bs[1..] == Batches(samples[size..], size);
      assert samples == samples[..size] + samples[size..];
    }
  }

  /** Batching makes ceil(n / size) batches. */
  lemma {:induction false} BatchesCount(samples: seq<Sample>, size: int)
    requires 0 < size
    ensures |Batches(samples, size)| == (|samples| + size - 1) / size
    decreases |samples|
  {
    var n := |samples|;
    if samples == [] {
      DivModUnique(size - 1, size, 0, size - 1);
    } else if n <= size {
      DivModUnique(n + size - 1, size, 1, n - 1);
    } else {
      BatchesCount(samples[size..], size);
      var m, r := (n - 1) / size, (n - 1) % size;
      assert n - 1 == m * size + r;
      DivModUnique(n - 1, size, m, r);
      DivModUnique(n + size - 1, size, m + 1, r);
    }
  }

  /** Every batch holds between one and `size` samples, and all but the last
      hold exactly `size`. */
  lemma {:induction false} BatchesSizes(samples: seq<Sample>, size: int)
    requires 0 < size
    ensures var bs := Batches(samples, size);
      (forall i :: 0 <= i < |bs| ==> 0 < |bs[i].samples| <= size) &&
      (forall i :: 0 <= i < |bs| - 1 ==> |bs[i].samples| == size)
    decreases |samples|
  {
    if size < |samples| {
      BatchesSizes(samples[size..], size);
      var bs := Batches(samples, size);
      assert forall i :: 1 <= i < |bs| ==> bs[i] == Batches(samples[size..], size)[i - 1];
    }
  }

  /** One split: `from_tensor_slices((images, classLabels)).map(_preprocess).batch(size)`.
      Slicing raises when the two arrays differ in length and batching raises
      on a size below one. */
  function Split(boundaries: seq<int>, resize: Image -> Image, images: seq<RawImage>, classLabels: seq<int>, batchSize: int): Result<seq<Batch>> {
    if |images| != |classLabels| then Err(SliceMismatch)
    else if batchSize <= 0 then Err(BatchSizeNotPositive)
    else Ok(Batches(seq(|images|, i requires 0 <= i < |images| => Preprocess(boundaries, resize, images[i], classLabels[i])), batchSize))
  }

  /** A split that builds holds every stored sample, preprocessed, in its
      stored order, in ceil(n / batch_size) batches. */
  lemma SplitContents(boundaries: seq<int>, resize: Image -> Image, images: seq<RawImage>, classLabels: seq<int>, batchSize: int)
    ensures Split(boundaries, resize, images, classLabels, batchSize).Ok? <==> |images| == |classLabels| && 0 < batchSize
    ensures var r := Split(boundaries, resize, images, classLabels, batchSize);
      r.Ok? ==>
        |r.value| == (|images| + batchSize - 1) / batchSize &&
        |Samples(r.value)| == |images| &&
        forall i :: 0 <= i < |images| ==> Samples(r.value)[i] == Preprocess(boundaries, resize, images[i], classLabels[i])
  {
    if |images| == |classLabels| && 0 < batchSize {
      var samples := seq(|images|, i requires 0 <= i < |images| => Preprocess(boundaries, resize, images[i], classLabels[i]));
      BatchesKeepSamples(samples, batchSize);
      BatchesCount(samples, batchSize);
    }
  }

  /** `_preprocess_dataset`: the boundaries, then the training and the test split. */
  function PreprocessDataset(dimBias: int, resize: Image -> Image,
                             trainImages: seq<RawImage>, trainLabels: seq<int>,
                             testImages: seq<RawImage>, testLabels: seq<int>,
                             batchSize: int): Result<(seq<Batch>, seq<Batch>)>
  {
    match Boundaries(dimBias)
    case Err(e) => Err(e)
    case Ok(boundaries) =>
      match Split(boundaries, resize, trainImages, trainLabels, batchSize)
      case Err(e) => Err(e)
      case Ok(train) =>
        match Split(boundaries, resize, testImages, testLabels, batchSize)
        case Err(e) => Err(e)
        case Ok(test) => Ok((train, test))
  }

  /** Preprocessing fails exactly on an unusable `dim_bias`, mismatched
      arrays or a non-positive batch size, and reports the first of these in
      the order the code meets them: the boundaries, then the training split's
      slicing and batching, then the test split's slicing. */
  lemma PreprocessDatasetOutcome(dimBias: int, resize: Image -> Image,
                                 trainImages: seq<RawImage>, trainLabels: seq<int>,
                                 testImages: seq<RawImage>, testLabels: seq<int>,
                                 batchSize: int)
    ensures var r := PreprocessDataset(dimBias, resize, trainImages, trainLabels, testImages, testLabels, batchSize);
      (r.Ok? <==> dimBias != 0 && dimBias <= 256 && |trainImages| == |trainLabels| &&
                  |testImages| == |testLabels| && 0 < batchSize) &&
      (dimBias == 0 ==> r == Err(ZeroDivision)) &&
      (256 < dimBias ==> r == Err(ZeroRangeStep)) &&
      (dimBias != 0 && dimBias <= 256 && |trainImages| != |trainLabels| ==> r == Err(SliceMismatch)) &&
      ((dimBias != 0 && dimBias <= 256 && |trainImages| == |trainLabels| && batchSize <= 0) ==>
         r == Err(BatchSizeNotPositive)) &&
      ((dimBias != 0 && dimBias <= 256 && |trainImages| == |trainLabels| && 0 < batchSize &&
        |testImages| != |testLabels|) ==> r == Err(SliceMismatch)) &&
      (r.Ok? ==> |r.value.0| == (|trainImages| + batchSize - 1) / batchSize &&
                 |r.value.1| == (|testImages| + batchSize - 1) / batchSize)
  {
    if Boundaries(dimBias).Ok? {
      var b := Boundaries(dimBias).value;
      SplitContents(b, resize, trainImages, trainLabels, batchSize);
      SplitContents(b, resize, testImages, testLabels, batchSize);
    }
  }
}
