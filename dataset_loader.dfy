/** The batching and label encoding of `DatasetLoader`: a view over two
    parallel lists, image file paths and label strings, that hands out
    fixed-size batches of decoded images with integer label codes. */
module DatasetLoading {
  import opened ListOps

  type Path = string
  type Label = string

  /** The batch size; the loader divides by it. */
  type Positive = n: nat | 0 < n witness 1

  /** Opening an image file, converting it to RGB and resizing it to a square
      of the given side. None stands for a file that cannot be read or decoded.
      Pixel values are left abstract in the type parameter of each user. */
  type Decoder<I> = (Path, int) -> Option<I>

  datatype Error =
    | ImageDecodeError(path: Path)   // the image library rejects the file
    | LabelNotFound(missing: Label)  // `labels.index` raises ValueError
    | NothingToConcatenate           // `numpy.concatenate` of no batches raises ValueError

  datatype Result<+T> = Ok(value: T) | Err(error: Error)

  /** What `__getitem__` returns: the image array and the label-code array. */
  datatype Batch<I> = Batch(images: seq<I>, codes: seq<nat>)

  class DatasetLoader {
    const xlSet: seq<Path>
    const ylSet: seq<Label>
    const labels: seq<Label>
    const imageSize: int
    const batchSize: Positive

    constructor (xlSet: seq<Path>, ylSet: seq<Label>, labels: seq<Label>, imageSize: int, batchSize: Positive)
      ensures this.xlSet == xlSet && this.ylSet == ylSet && this.labels == labels
      ensures this.imageSize == imageSize && this.batchSize == batchSize
    {
      this.xlSet := xlSet;
      this.ylSet := ylSet;
      this.labels := labels;
      this.imageSize := imageSize;
      this.batchSize := batchSize;
    }

    /** `__len__`: the number of batches, the least k with k * batchSize >= n. */
    function Len(): (k: nat)
      ensures k * batchSize >= |xlSet|
      ensures k == 0 || (k - 1) * batchSize < |xlSet|
    {
      var q := (|xlSet| + batchSize - 1) / batchSize;
      assert q * batchSize + (|xlSet| + batchSize - 1) % batchSize == |xlSet| + batchSize - 1;
      q
    }

    /** `length`: the number of image paths; with as many labels as paths it
        is the number of samples the `__len__()` batches hand out together. */
    function Length(): (n: nat)
      ensures |xlSet| == |ylSet| ==> n == BatchLengthsSum(Len())
    {
      BatchLengthsCover(Len());
      CoveredAll();
      |xlSet|
    }

    // ---------------------------------------------------------------
    // Index arithmetic of `__getitem__`
    // ---------------------------------------------------------------

    /** `index_beg`: the first position of batch `index`. A batch below
        `__len__()` starts at a sample, and one before the last has a full
        batch of samples from there on. */
    function IndexBeg(index: nat): (b: nat)
      ensures index < Len() ==> b < |xlSet|
      ensures index + 1 < Len() ==> b + batchSize < |xlSet|
    {
      assert index < Len() ==> index * batchSize < |xlSet| by {
        if index < Len() {
          MulMonotone(index, Len() - 1, batchSize);
        }
      }
      assert index + 1 < Len() ==> index * batchSize + batchSize < |xlSet| by {
        if index + 1 < Len() {
          MulMonotone(index + 1, Len() - 1, batchSize);
        }
      }
      index * batchSize
    }

    /** `index_end`: one past the last position of batch `index`, clamped to n.
        Every batch below `__len__()` is non-empty and all but the last are
        full; the last one, and every one past it, ends at n. */
    function IndexEnd(index: nat): (e: nat)
      ensures e <= |xlSet| && e <= IndexBeg(index) + batchSize
      ensures index < Len() ==> IndexBeg(index) < e
      ensures index + 1 < Len() ==> e == IndexBeg(index) + batchSize
      ensures index + 1 >= Len() ==> e == |xlSet|
    {
      assert index + 1 >= Len() ==> IndexBeg(index) + batchSize >= |xlSet| by {
        if index + 1 >= Len() {
          MulMonotone(Len(), index + 1, batchSize);
          assert IndexBeg(index) + batchSize == (index + 1) * batchSize;
        }
      }
      Min(IndexBeg(index) + batchSize, |xlSet|)
    }

    /** How many samples the zip of the two lists can reach at all. */
    function Paired(): nat {
      Min(|xlSet|, |ylSet|)
    }

    /** One past the last position the zip of the two slices reaches for batch
        `index`; equal to IndexBeg(index) when the batch is empty. */
    function ZipEnd(index: nat): (z: nat)
      ensures IndexBeg(index) <= z <= IndexEnd(index) || z == IndexBeg(index)
      ensures z <= Paired() || z == IndexBeg(index)
    {
      if IndexBeg(index) <= Paired() then Min(IndexBeg(index) + batchSize, Paired())
      else IndexBeg(index)
    }

    /** The (path, label) pairs the loop of `__getitem__` walks over: the
        pairs at positions [IndexBeg(index), ZipEnd(index)), in order; none
        for an index at or past `__len__()`. */
    function BatchSamples(index: nat): (s: seq<(Path, Label)>)
      ensures IndexBeg(index) <= ZipEnd(index)
      ensures |s| == ZipEnd(index) - IndexBeg(index)
      ensures forall k :: 0 <= k < |s| ==> s[k] == (xlSet[IndexBeg(index) + k], ylSet[IndexBeg(index) + k])
      ensures index >= Len() ==> s == []
    {
      assert index >= Len() ==> IndexBeg(index) >= |xlSet| by {
        if index >= Len() {
          MulMonotone(Len(), index, batchSize);
        }
      }
      var xlBatch := Slice(xlSet, IndexBeg(index), IndexEnd(index));
      var ylBatch := Slice(ylSet, IndexBeg(index), IndexEnd(index));
      Zip(xlBatch, ylBatch)
    }

    // ---------------------------------------------------------------
    // What one sample turns into
    // ---------------------------------------------------------------

    /** Sample `i` decodes and its label is in the vocabulary. */
    predicate Loads<I>(i: nat, decode: Decoder<I>)
      requires i < Paired()
    {
      decode(xlSet[i], imageSize).Some? && ylSet[i] in labels
    }

    /** The error sample `i` raises: decoding comes before the label lookup. */
    function Failure<I>(i: nat, decode: Decoder<I>): Error
      requires i < Paired() && !Loads(i, decode)
    {
      if decode(xlSet[i], imageSize).None? then ImageDecodeError(xlSet[i])
      else LabelNotFound(ylSet[i])
    }

    /** Every position in [lo, i) holds a sample, and every one of them loads. */
    predicate LoadsBelow<I>(lo: nat, i: nat, decode: Decoder<I>) {
      forall j :: lo <= j < i ==> j < Paired() && Loads(j, decode)
    }

    lemma LoadsBelowExtend<I>(lo: nat, i: nat, decode: Decoder<I>)
      requires LoadsBelow(lo, i, decode)
      requires i < Paired() && Loads(i, decode)
      ensures LoadsBelow(lo, i + 1, decode)
    {
    }

    // ---------------------------------------------------------------
    // Batches
    // ---------------------------------------------------------------

    /** The loop of `__getitem__` over `samples`, the zipped pairs at
        positions lo, lo+1, ...: decodes each image and encodes each label,
        and the first sample that fails aborts the whole batch. */
    method LoadSamples<I>(lo: nat, samples: seq<(Path, Label)>, decode: Decoder<I>) returns (r: Result<Batch<I>>)
      requires samples == [] || lo + |samples| <= Paired()
      requires forall k :: 0 <= k < |samples| ==> samples[k] == (xlSet[lo + k], ylSet[lo + k])
      ensures r.Ok? <==> LoadsBelow(lo, lo + |samples|, decode)
      ensures r.Ok? ==> |r.value.images| == |r.value.codes| == |samples|
      ensures r.Ok? ==> forall k :: 0 <= k < |r.value.codes| ==>
                decode(xlSet[lo + k], imageSize) == Some(r.value.images[k]) &&
                Index(labels, ylSet[lo + k]) == Some(r.value.codes[k])
      ensures r.Err? ==>
                exists i :: lo <= i < lo + |samples| && i < Paired() &&
                  LoadsBelow(lo, i, decode) && !Loads(i, decode) && Failure(i, decode) == r.error
    {
      var xArray: seq<I> := [];
      var yArray: seq<nat> := [];
      for k := 0 to |samples|
        invariant |xArray| == |yArray| == k
        invariant LoadsBelow(lo, lo + k, decode)
        invariant forall j :: 0 <= j < k ==>
                    decode(xlSet[lo + j], imageSize) == Some(xArray[j]) &&
                    Index(labels, ylSet[lo + j]) == Some(yArray[j])
      {
        var (xl, yl) := samples[k];
        var x := decode(xl, imageSize);
        if x.None? {
          assert !Loads(lo + k, decode) && Failure(lo + k, decode) == ImageDecodeError(xl);
          return Err(ImageDecodeError(xl));
        }
        xArray := xArray + [x.value];
        var y := Index(labels, yl);
        if y.None? {
          assert !Loads(lo + k, decode) && Failure(lo + k, decode) == LabelNotFound(yl);
          return Err(LabelNotFound(yl));
        }
        yArray := yArray + [y.value];
        LoadsBelowExtend(lo, lo + k, decode);
      }
      return Ok(Batch(xArray, yArray));
    }

    /** `__getitem__`: decodes the images and encodes the labels of batch
        `index`; the first sample that fails aborts the whole batch. */
    method GetItem<I>(index: nat, decode: Decoder<I>) returns (r: Result<Batch<I>>)
      ensures r.Ok? <==> LoadsBelow(IndexBeg(index), ZipEnd(index), decode)
      ensures r.Ok? ==> |r.value.images| == |r.value.codes| == ZipEnd(index) - IndexBeg(index)
      ensures r.Ok? ==> forall k :: 0 <= k < |r.value.codes| ==>
                decode(xlSet[IndexBeg(index) + k], imageSize) == Some(r.value.images[k]) &&
                Index(labels, ylSet[IndexBeg(index) + k]) == Some(r.value.codes[k])
      ensures r.Err? ==>
                exists i :: IndexBeg(index) <= i < ZipEnd(index) && i < Paired() &&
                  LoadsBelow(IndexBeg(index), i, decode) && !Loads(i, decode) && Failure(i, decode) == r.error
    {
      var samples := BatchSamples(index);
      r := LoadSamples(IndexBeg(index), samples, decode);
    }

    // ---------------------------------------------------------------
    // All labels
    // ---------------------------------------------------------------

    /** The positions that batches 0 .. k-1 cover together. */
    function Covered(k: nat): nat {
      Min(IndexBeg(k), Paired())
    }

    /** Batch `index` picks up exactly where batches 0 .. index-1 stop. */
    lemma CoveredStep(index: nat)
      ensures IndexBeg(index) < ZipEnd(index) ==> Covered(index) == IndexBeg(index)
      ensures Covered(index + 1) == Covered(index) + (ZipEnd(index) - IndexBeg(index))
    {
      assert IndexBeg(index + 1) == IndexBeg(index) + batchSize;
    }

    /** The batches 0 .. Len()-1 together reach every paired sample. */
    lemma CoveredAll()
      ensures Covered(Len()) == Paired()
    {
    }

    /** `y`: the label codes of every batch, concatenated in batch order. */
    method Y<I>(decode: Decoder<I>) returns (r: Result<seq<nat>>)
      ensures r.Ok? <==> |xlSet| > 0 && LoadsBelow(0, Paired(), decode)
      ensures r.Ok? ==> |r.value| == Paired()
      ensures r.Ok? ==> forall i :: 0 <= i < Paired() ==> Index(labels, ylSet[i]) == Some(r.value[i])
      ensures |xlSet| == 0 ==> r == Err(NothingToConcatenate)
      ensures r.Err? && |xlSet| > 0 ==>
                exists i :: 0 <= i < Paired() && LoadsBelow(0, i, decode) && !Loads(i, decode) && Failure(i, decode) == r.error
    {
      var parts: seq<seq<nat>> := [];
      for index := 0 to Len()
        invariant |parts| == index
        invariant |Flatten(parts)| == Covered(index)
        invariant LoadsBelow(0, Covered(index), decode)
        invariant forall i :: 0 <= i < Covered(index) ==> Index(labels, ylSet[i]) == Some(Flatten(parts)[i])
      {
        var batch := GetItem(index, decode);
        CoveredStep(index);
        if batch.Err? {
          return Err(batch.error);
        }
        FlattenAppend(parts, batch.value.codes);
        parts := parts + [batch.value.codes];
      }
      CoveredAll();
      match Concatenate(parts) {
        case None =>
          return Err(NothingToConcatenate);
        case Some(yArray) =>
          return Ok(yArray);
      }
    }

    // ---------------------------------------------------------------
    // Properties of the batch layout
    // ---------------------------------------------------------------

    /** With as many labels as paths, the batches tile [0, n): each one is
        non-empty, starts where the previous one stopped, is full except
        possibly for the last, and the last stops at n. */
    lemma BatchesTile(index: nat)
      requires |xlSet| == |ylSet|
      requires index < Len()
      ensures IndexBeg(0) == 0
      ensures IndexBeg(index) < ZipEnd(index) == IndexEnd(index)
      ensures ZipEnd(index) - IndexBeg(index) == Min(batchSize, |xlSet| - IndexBeg(index))
      ensures index + 1 < Len() ==> ZipEnd(index) - IndexBeg(index) == batchSize
      ensures index + 1 < Len() ==> ZipEnd(index) == IndexBeg(index + 1)
      ensures index + 1 == Len() ==> ZipEnd(index) == |xlSet|
    {
      MulMonotone(index, Len() - 1, batchSize);
      if index + 1 < Len() {
        MulMonotone(index + 1, Len() - 1, batchSize);
      }
      assert IndexBeg(index + 1) == IndexBeg(index) + batchSize;
    }

    /** The lengths of batches 0 .. k-1 added up. */
    function BatchLengthsSum(k: nat): nat {
      if k == 0 then 0 else BatchLengthsSum(k - 1) + |BatchSamples(k - 1)|
    }

    lemma {:induction false} BatchLengthsCover(k: nat)
      ensures BatchLengthsSum(k) == Covered(k)
    {
      if k > 0 {
        var j := k - 1;
        calc {
          BatchLengthsSum(j + 1);
        ==
          BatchLengthsSum(j) + |BatchSamples(j)|;
        == { BatchLengthsCover(j); }
          Covered(j) + (ZipEnd(j) - IndexBeg(j));
        == { CoveredStep(j); }
          Covered(j + 1);
        }
      }
    }

    // ---------------------------------------------------------------
    // Vocabulary
    // ---------------------------------------------------------------

    /** Every label string of the loader is in its vocabulary. */
    predicate LabelsKnown() {
      forall l :: l in ylSet ==> l in labels
    }

    /** When every label string is in the vocabulary, a sample can fail only
        because its image does not decode. */
    lemma KnownLabelsOnlyFailOnImages<I>(i: nat, decode: Decoder<I>)
      requires LabelsKnown()
      requires i < Paired()
      ensures Loads(i, decode) <==> decode(xlSet[i], imageSize).Some?
      ensures !Loads(i, decode) ==> Failure(i, decode) == ImageDecodeError(xlSet[i])
    {
      assert ylSet[i] in ylSet;
    }
  }

  /** a <= b implies a * c <= b * c. */
  lemma MulMonotone(a: nat, b: nat, c: nat)
    requires a <= b
    ensures a * c <= b * c
  {
    assert b * c == a * c + (b - a) * c;
  }

  // -----------------------------------------------------------------
  // from_directory
  // -----------------------------------------------------------------

  /** `list(set(ylAll))`: every collected label once, in the unspecified order
      in which the set is iterated. */
  method Vocabulary(ylAll: seq<Label>) returns (labels: seq<Label>)
    ensures forall l :: l in labels <==> l in ylAll
    ensures Distinct(labels)
  {
    var pending := set l | l in ylAll;
    labels := [];
    while pending != {}
      invariant forall l :: l in labels || l in pending <==> l in ylAll
      invariant forall l :: l in labels ==> l !in pending
      invariant Distinct(labels)
      decreases pending
    {
      var l :| l in pending;
      labels := labels + [l];
      pending := pending - {l};
    }
  }

  /** A split whose (path, label) pairs come from the collected ones draws its
      labels from the collected labels. */
  lemma SplitLabelsComeFromAll(xs: seq<Path>, ys: seq<Label>, xlAll: seq<Path>, ylAll: seq<Label>)
    requires |xs| == |ys|
    requires multiset(Zip(xs, ys)) <= multiset(Zip(xlAll, ylAll))
    ensures forall l :: l in ys ==> l in ylAll
  {
    forall l | l in ys
      ensures l in ylAll
    {
      var i :| 0 <= i < |ys| && ys[i] == l;
      assert Zip(xs, ys)[i] == (xs[i], l);
      assert (xs[i], l) in multiset(Zip(xs, ys));
      assert (xs[i], l) in Zip(xlAll, ylAll);
      var j :| 0 <= j < |Zip(xlAll, ylAll)| && Zip(xlAll, ylAll)[j] == (xs[i], l);
      assert ylAll[j] == l;
    }
  }

  /** `from_directory` after the directory walk and the random split: the
      collected paths and labels and the three splits are its inputs, the
      splits being any partition of the collected (path, label) pairs. Builds
      the shared vocabulary and the three loaders. */
  method FromDirectory(
    title: string, xlAll: seq<Path>, ylAll: seq<Label>,
    xlTrain: seq<Path>, ylTrain: seq<Label>,
    xlTest: seq<Path>, ylTest: seq<Label>,
    xlVal: seq<Path>, ylVal: seq<Label>,
    imageSize: int, batchSize: Positive)
    returns (dlTrain: DatasetLoader, dlTest: DatasetLoader, dlVal: DatasetLoader, name: string, labels: seq<Label>)
    requires |xlTrain| == |ylTrain| && |xlTest| == |ylTest| && |xlVal| == |ylVal|
    requires multiset(Zip(xlTrain, ylTrain)) + multiset(Zip(xlTest, ylTest)) + multiset(Zip(xlVal, ylVal))
             == multiset(Zip(xlAll, ylAll))
    ensures fresh(dlTrain) && fresh(dlTest) && fresh(dlVal)
    ensures dlTrain.xlSet == xlTrain && dlTrain.ylSet == ylTrain
    ensures dlTest.xlSet == xlTest && dlTest.ylSet == ylTest
    ensures dlVal.xlSet == xlVal && dlVal.ylSet == ylVal
    ensures dlTrain.labels == dlTest.labels == dlVal.labels == labels
    ensures dlTrain.imageSize == dlTest.imageSize == dlVal.imageSize == imageSize
    ensures dlTrain.batchSize == dlTest.batchSize == dlVal.batchSize == batchSize
    ensures name == title
    ensures forall l :: l in labels <==> l in ylAll
    ensures Distinct(labels)
    ensures dlTrain.LabelsKnown() && dlTest.LabelsKnown() && dlVal.LabelsKnown()
  {
    name := title;
    labels := Vocabulary(ylAll);
    SplitLabelsComeFromAll(xlTrain, ylTrain, xlAll, ylAll);
    SplitLabelsComeFromAll(xlTest, ylTest, xlAll, ylAll);
    SplitLabelsComeFromAll(xlVal, ylVal, xlAll, ylAll);
    dlTrain := new DatasetLoader(xlTrain, ylTrain, labels, imageSize, batchSize);
    dlTest := new DatasetLoader(xlTest, ylTest, labels, imageSize, batchSize);
    dlVal := new DatasetLoader(xlVal, ylVal, labels, imageSize, batchSize);
  }
}
