# Dataset loader: batching and label encoding

This project models the core of `DatasetLoader` from the image-classification
code of `we-model`. A loader wraps two parallel lists: image file paths
(`xl_set`) and label strings (`yl_set`). It also holds a label vocabulary
(`labels`), an image side length and a positive batch size. It hands out
numbered batches. Batch `index` holds the samples at positions
`[index*batch_size, min(index*batch_size + batch_size, n))`. Each image is
decoded and resized. Each label string is encoded as its first position in
the vocabulary. `y()` gathers the label codes of every batch, and
`from_directory` builds one shared vocabulary for three loaders (train, test
and validation).

Layout:

- `list_ops.dfy`, module `ListOps`: the Python and numpy list operations the
  loader relies on. These are `min`, slicing with non-negative bounds, `zip`
  (which stops at the shorter list), `list.index` (None stands for its
  ValueError), and `numpy.concatenate` (None when there is nothing to
  concatenate).
- `dataset_loader.dfy`, module `DatasetLoading`: the class `DatasetLoader`.
  Its fields are `const`, since the source sets them once in `__init__` and
  never changes them. `__getitem__` and `y` become methods whose loops mirror
  the source's `for` loops; the loop of `__getitem__` is the method
  `LoadSamples`, which `GetItem` runs on the zipped slices of its batch.
  `from_directory`, after its directory walk and its random split, becomes the methods `Vocabulary` and `FromDirectory`.

Image decoding (PIL `open(...).convert("RGB")` followed by
`tensorflow.image.resize`) is a parameter `decode: (Path, int) -> Option<I>`.
It is called with the loader's image size. `None` means the file could not
be decoded. The pixel type `I` is left abstract, so the model keeps only
which image belongs where and in what order. Errors are values of
`Error`: `ImageDecodeError`, `LabelNotFound` (the ValueError of
`labels.index`) and `NothingToConcatenate` (the ValueError of
`numpy.concatenate` on an empty list).

## Model

| member | source | states |
|---|---|---|
| `ListOps.Min` | classification/dataset_loader.py:31 | `min` of two counts is one of them and is at most either |
| `ListOps.Slice` | classification/dataset_loader.py:33-34 | a slice with non-negative bounds holds the elements from `beg` up to the end clamped to the length, in order, and is empty when the start is past that end |
| `ListOps.Zip` | classification/dataset_loader.py:39 | `zip` has the length of the shorter list, and its element k pairs the two lists' elements k |
| `ListOps.Index` | classification/dataset_loader.py:45 | `labels.index(yl)` fails exactly when the label does not occur; otherwise it returns a position that holds the label and has no earlier occurrence |
| `ListOps.Concatenate` | classification/dataset_loader.py:68 | concatenation fails exactly when there are no arrays; otherwise its result is as long as all arrays together, and array i occupies the stretch that starts right after the arrays in front of it |
| `ListOps.FlattenLayout` | classification/dataset_loader.py:68 | laying parts end to end keeps every part in order and adds nothing: the length is the sum of the parts' lengths, and part i sits at the offset given by the lengths of the parts before it |
| `DatasetLoading.DatasetLoader.constructor` | classification/dataset_loader.py:12-20 | the loader stores its two lists, the vocabulary, the image size and the batch size unchanged |
| `DatasetLoading.DatasetLoader.Len` | classification/dataset_loader.py:23-25 | the batch count k is ceil(n / batch_size): k batches hold all n samples (k*batch_size >= n), and k-1 batches do not |
| `DatasetLoading.DatasetLoader.Length` | classification/dataset_loader.py:54-56 | `length()` is the number of image paths; with as many labels as paths it equals the sum of the lengths of all `__len__()` batches |
| `DatasetLoading.DatasetLoader.IndexBeg` | classification/dataset_loader.py:30 | `index_beg` of a batch below `__len__()` is the position of a sample, and for every batch before the last a full batch of samples follows it |
| `DatasetLoading.DatasetLoader.IndexEnd` | classification/dataset_loader.py:31 | `index_end` never passes n or `index_beg + batch_size`; a batch below `__len__()` is non-empty; every batch before the last ends a full batch after its start; the last batch, and any index past it, ends at n |
| `DatasetLoading.DatasetLoader.BatchSamples` | classification/dataset_loader.py:33-39 | the loop of `__getitem__` walks the (path, label) pairs at positions `[index*batch_size, ZipEnd(index))` in order, where `ZipEnd` is where the zipped slices stop; for an index at or past `__len__()` there are none |
| `DatasetLoading.DatasetLoader.LoadSamples` | classification/dataset_loader.py:39-45 | the loop over the zipped pairs from position `lo` on completes exactly when every pair decodes and has its label in the vocabulary; then image k is the decoded image of path `lo + k` and code k is the first vocabulary position of label `lo + k`; otherwise the error is the one raised by the first failing pair |
| `DatasetLoading.DatasetLoader.GetItem` | classification/dataset_loader.py:28-51 | for every non-negative index, a batch succeeds exactly when every one of its samples decodes and has its label in the vocabulary; then the image array and the code array have the batch's length, and element k of each comes from sample `index*batch_size + k` (the decoded image, and the label's first position in `labels`); otherwise the error is the one raised by the first failing sample, with a decode failure taking precedence over a missing label; an index at or past `__len__()` gives an empty batch |
| `DatasetLoading.DatasetLoader.BatchesTile` | classification/dataset_loader.py:23-34 | with as many labels as paths, batch 0 starts at 0; each batch is non-empty and has length min(batch_size, n - index*batch_size); every batch but the last is full and ends where the next begins; the last ends at n |
| `DatasetLoading.DatasetLoader.Y` | classification/dataset_loader.py:59-70 | `y()` succeeds exactly when there is at least one sample and every paired sample loads; then it holds, in order, the first vocabulary position of every paired label; with no samples it fails with the concatenation error; otherwise it fails with the first failing sample's error |
| `DatasetLoading.DatasetLoader.BatchLengthsCover` | classification/dataset_loader.py:30-34 | batches 0..k-1 together hold min(k*batch_size, number of paired samples) samples |
| `DatasetLoading.DatasetLoader.KnownLabelsOnlyFailOnImages` | classification/dataset_loader.py:41-45 | when every label string of the loader is in its vocabulary, a sample fails only when its image does not decode, and the error names that image |
| `DatasetLoading.Vocabulary` | classification/dataset_loader.py:88 | `list(set(yl_all))` holds every collected label, only collected labels, and none twice, in an unspecified order |
| `DatasetLoading.SplitLabelsComeFromAll` | classification/dataset_loader.py:84-85 | a split whose (path, label) pairs are drawn from the collected pairs uses only collected labels |
| `DatasetLoading.FromDirectory` | classification/dataset_loader.py:74-94 | the three loaders get their split's lists, share one distinct vocabulary of exactly the collected labels, share image and batch size, and every label string of every split is in that vocabulary, so no batch of theirs can raise `LabelNotFound` |

## Left out

- Image decoding and resizing (PIL and TensorFlow) are file I/O and floating-point interpolation in foreign libraries. They are the parameter `decode`; pixel values and array shapes beyond the batch length are not modelled.
- The directory walk (`rglob`, `is_file`, `parent.stem`) is filesystem access. The collected path and label lists are inputs to `FromDirectory`, and so is the title, which the source takes from `directory.stem`.
- `sklearn.model_selection.train_test_split` is an unseeded random split in a foreign library. Its three outputs are inputs to `FromDirectory`, with the requirement that together they are the collected (path, label) pairs as a multiset. The 80/10/10 sizes are not modelled. Neither is sklearn's refusal to split too few samples: it raises for an empty directory rather than yielding empty loaders.
- The order of `list(set(yl_all))` depends on set iteration. `Vocabulary` picks each next label nondeterministically, so only membership and distinctness are stated, not particular codes.
- DatasetLoading.DatasetLoader.GetItem: the index is a natural number. A negative index, for which Python slicing would count from the end of the lists, is not modelled.
- DatasetLoading.DatasetLoader.Len: computes ceil(n / batch_size) exactly in integers. The source divides in floating point, which agrees for n below 2^53.
- The batch size is a positive integer by type. The source does not check it: a zero batch size would raise ZeroDivisionError in `__len__`.
- The numpy array types (dtype, the 4-dimensional image array) are not modelled. Images of one batch are a sequence and label codes are natural numbers.
- The `tensorflow.keras.utils.Sequence` base class and its `**kwargs` are framework plumbing and are not modelled.
