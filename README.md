# diffengine mask generation and PixArt-alpha batch merging, in Dafny

This project models two pieces of diffengine, a toolkit for fine-tuning
diffusion models:

- the bounding-box inpainting masks of `diffengine/datasets/transforms/loading.py`:
  `random_bbox` draws a box `(top, left, h, w)` inside an image, `bbox2mask`
  turns it into an `(height, width, 1)` uint8 array, and the `LoadMask`
  transform stores both in a pipeline's results dict;
- `PixArtAlphaDataPreprocessor.forward`, which appends a DreamBooth class-image
  batch to the instance batch (captions, images and the optional resolution
  and aspect-ratio lists) and stacks the lists into batches.

Modules:

- `Errors` (`errors.dfy`): `Option`, `Result`, and one `Error` constructor per
  way the modelled code raises, with the Python exception class of each.
- `Bbox` (`bbox.dfy`): `random_bbox` as a pure function. The four
  `np.random.randint` calls become a `Draws` parameter. `RandInt` says that
  each draw lies in its half-open range whenever that range is non-empty. An
  empty range raises, and the model returns `EmptyDrawRange` for it.
  Argument normalisation follows the code: an int `x` becomes `(x, x)`, every
  component must be an int (AssertionError), and a tuple of the wrong length
  fails to unpack (ValueError).
- `Mask` (`mask.dfy`): `bbox2mask` as a method that allocates a zero-filled
  `array3<uint8>` and sets the box's slice to 1 in a nested loop. Slice bounds
  follow numpy: a negative bound counts from the end, and every bound is then
  clipped to the dimension. `MaskSum` is the array's sum, as a function.
- `Loading` (`loading.dfy`): the `LoadMask` class and a `Results` object
  whose `entries` map stands for the results dict the transform updates in
  place. Configuration keys are bound to `random_bbox`'s keyword parameters as
  Python binds `**mask_config`.
- `PixArt` (`pixart.dfy`): `ForwardData` / `ForwardInputs` give the new data
  dict and the error raised. The `Forward` method of the class
  `PixArtAlphaDataPreprocessor` updates a `Data` object step by step and is
  proved equal to them. An error raised part-way leaves the updates made so
  far in place, as in Python: a failing pop of `resolution` comes after `text`
  and `img` have been merged.

Edge cases the contracts state:

- The comment at `loading.py:82` says the centre of the box is kept, but the
  code keeps the bottom and right edges (`BottomRightFixed`). The centre moves
  whenever the height shrinks (`CentreMovesWhenShrunk`). The model follows the
  code.
- The margin check at `loading.py:70` only rejects
  `img - max_mask < 2 * margin`. When the two sides are equal, the first
  `randint` call gets an empty range and numpy raises
  (`MarginEqualityFailsInDraw`). A negative `max_bbox_delta` gets past the
  checks too, and the delta draw then raises (`SucceedsExactly`).
- With a negative `min_margin`, `random_bbox` may return a negative `top`.
  numpy then reads that slice bound from the end, and the mask can lose the
  box entirely (`NegativeMarginLosesBox`). The sum `h * w` is proved for
  non-negative margins (`RandomBboxMaskSum`).

## Model

| member | source | states |
|---|---|---|
| `Errors.ExceptionClass` | diffengine/datasets/transforms/loading.py:52-73 | the failed int checks raise AssertionError; the unpacking, validation and empty-range failures are exactly the ValueErrors; unknown modes raise NotImplementedError; missing keys raise KeyError |
| `Bbox.Normalise` | diffengine/datasets/transforms/loading.py:46-59 | ints become square pairs, then all three arguments must be tuples of ints, then each unpacks into two; a failure is an assertion error exactly when some component is not an int (checked before any unpacking), and otherwise an unpacking error; a success holds the two components of each tuple |
| `Bbox.IntBecomesSquarePair` | diffengine/datasets/transforms/loading.py:46-51 | an int given for max_bbox_shape, max_bbox_delta or min_margin becomes the pair (x, x) |
| `Bbox.NormaliseExactly` | diffengine/datasets/transforms/loading.py:46-59 | normalisation succeeds exactly for an int or a 2-tuple of ints, and then yields the pairs those values stand for; every failure is an assertion failure or an unpacking failure |
| `Bbox.RandomBboxOf` | diffengine/datasets/transforms/loading.py:61-89 | random_bbox on normalised parameters: it fails only with one of the three validation errors or an empty draw range, and a box it returns is at least 1 x 1 and no larger than max_bbox_shape |
| `Bbox.RandomBbox` | diffengine/datasets/transforms/loading.py:46-89 | a normalisation error comes first; a box is returned only for accepted arguments and keeps the margins min_margin stands for |
| `Bbox.ValidationRaisesExactly` | diffengine/datasets/transforms/loading.py:61-73 | one of the three validation errors is raised exactly when the mask exceeds the image, or delta//2*2 >= max_mask, or img - max_mask < 2*margin, in either dimension |
| `Bbox.SucceedsExactly` | diffengine/datasets/transforms/loading.py:61-89 | a box is returned exactly when the validations pass, img - max_mask > 2*margin in both dimensions, and both deltas are non-negative |
| `Bbox.MarginEqualityFailsInDraw` | diffengine/datasets/transforms/loading.py:70-79 | when img_h - max_mask_h == 2*margin_h, the margin check passes but the top draw raises on an empty range |
| `Bbox.SizeBounds` | diffengine/datasets/transforms/loading.py:83-88 | max_mask - max_delta//2 <= h <= max_mask, the same for w, and both are at least 1 |
| `Bbox.WithinMargins` | diffengine/datasets/transforms/loading.py:76-88 | top >= margin_h and top + h < img_h - margin_h, and the same for left and w |
| `Bbox.BottomRightFixed` | diffengine/datasets/transforms/loading.py:85-88 | top + h equals the first draw plus max_mask_h, and left + w equals the second draw plus max_mask_w, so shrinking moves only the top and left edges |
| `Bbox.CentreMovesWhenShrunk` | diffengine/datasets/transforms/loading.py:81-88 | the vertical centre of the box stays where it was exactly when the height delta drawn is 0 |
| `Mask.MaskIsClippedBox` | diffengine/datasets/transforms/loading.py:115-118 | for a box with non-negative corners, a cell of the mask is 0 or 1, and it is 1 exactly inside [top, top+h) x [left, left+w) within the image |
| `Mask.SliceBound` | diffengine/datasets/transforms/loading.py:118 | a slice bound within [0, n] is kept, a negative one at least -n counts from the end, one below -n becomes 0 and one above n becomes n; the result never exceeds n |
| `Mask.MaskValue` | diffengine/datasets/transforms/loading.py:117-118 | a cell of the mask is 0 or 1, and it is 1 exactly when it lies in the normalised slice |
| `Mask.Bbox2Mask` | diffengine/datasets/transforms/loading.py:115-120 | returns a new array of shape (height, width, 1) whose cells are 1 on the numpy-normalised slice of the box and 0 elsewhere |
| `Mask.CountInSpan` | diffengine/datasets/transforms/loading.py:118 | counting the indices of [0, k) that fall in [lo, hi), for lo >= 0, gives the length of [lo, min(hi, k)) |
| `Mask.MaskSum` | diffengine/datasets/transforms/loading.py:117-118 | the number of ones in bbox2mask's array is the area of the slice rectangle after numpy's bound normalisation |
| `Mask.RandomBboxMaskSum` | diffengine/datasets/transforms/loading.py:76-118 | for a box from random_bbox with non-negative margins, the mask's sum is h * w |
| `Mask.NegativeMarginLosesBox` | diffengine/datasets/transforms/loading.py:76-118 | with margin -2, random_bbox can return top = -1 for a 4x4 box, and that box's mask sums to 0 |
| `Loading.BindBboxKeywords` | diffengine/datasets/transforms/loading.py:422-423 | binding succeeds exactly when max_bbox_shape is given and no key other than the three keyword parameters is present; each configured keyword is passed on as given, and an absent max_bbox_delta or min_margin takes the default 40 or 20; any other config is a TypeError |
| `Loading.ImageShape` | diffengine/datasets/transforms/loading.py:420 | the size is read exactly when results["img"] is an image, and it is that image's (height, width); a missing "img" key is a KeyError, and a value without a size fails |
| `Loading.BboxOutcome` | diffengine/datasets/transforms/loading.py:421-423 | a keyword-binding error comes first; a box drawn for an image of the given size is at least 1 x 1 and no larger than the image |
| `Loading.TransformPlan` | diffengine/datasets/transforms/loading.py:420-437 | an image-size error comes first; in bbox mode a config that does not bind fails with TypeError; writing a box happens only in bbox mode and for the image's size; irregular and ff store the generator's mask exactly when it raised nothing and otherwise fail with its error; any other mode fails with NotImplementedError |
| `Loading.UnknownModeNotImplemented` | diffengine/datasets/transforms/loading.py:421-435 | any mode other than bbox, irregular and ff, the documented "set" among them, raises NotImplementedError |
| `Loading.BboxModeUsesRandomBbox` | diffengine/datasets/transforms/loading.py:421-425 | in bbox mode the transform writes exactly the box random_bbox draws for the image size and the bound keywords, and raises exactly what random_bbox raises |
| `Loading.IntConfigBecomesSquarePairs` | diffengine/datasets/transforms/loading.py:422-423 | config {max_bbox_shape: s} reaches random_bbox as the pairs (s, s), (40, 40) and (20, 20) |
| `Loading.LoadMask.constructor` | diffengine/datasets/transforms/loading.py:403-406 | a missing mode becomes the default "bbox", a given one is kept, and a missing config becomes the empty dict |
| `Loading.LoadMask.Transform` | diffengine/datasets/transforms/loading.py:408-437 | on success in bbox mode the dict gains mask_bbox = the drawn box and mask = a new array equal to bbox2mask of it, with nothing else changed; irregular and ff store the generator's mask; on any error the dict is unchanged and the error is returned |
| `PixArt.Stack` | diffengine/models/editors/pixart_alpha/pixart_alpha_data_preprocessor.py:46 | stacking succeeds exactly on a non-empty list of tensors, and gives a batch of the same length whose rows are the list's elements in order |
| `PixArt.Concat` | diffengine/models/editors/pixart_alpha/pixart_alpha_data_preprocessor.py:33-44 | `+` succeeds exactly on two lists and gives the first list's elements followed by the second's; anything else is a TypeError |
| `PixArt.MergeFromClass` | diffengine/models/editors/pixart_alpha/pixart_alpha_data_preprocessor.py:33-44 | one append-and-pop keeps the key set, changes only the merged key and the class-image dict, and passes an earlier error on untouched |
| `PixArt.StackKey` | diffengine/models/editors/pixart_alpha/pixart_alpha_data_preprocessor.py:46-53 | one stacking keeps the key set, changes only its key, leaves a batch there on success, and passes an earlier error on untouched |
| `PixArt.MergeClassBatch` | diffengine/models/editors/pixart_alpha/pixart_alpha_data_preprocessor.py:31-44 | the merge phase keeps the key set and every entry besides text, img, resolution, aspect_ratio and result_class_image; without a class-image dict it changes nothing |
| `PixArt.StackBatch` | diffengine/models/editors/pixart_alpha/pixart_alpha_data_preprocessor.py:46-53 | the stack phase keeps the key set and every entry besides img, resolution and aspect_ratio, and passes an earlier error on |
| `PixArt.MergeStepOk` | diffengine/models/editors/pixart_alpha/pixart_alpha_data_preprocessor.py:33-36 | one successful merge sets inputs[key] to the instance list followed by the class list and removes key from the class-image dict |
| `PixArt.DreamBoothMerge` | diffengine/models/editors/pixart_alpha/pixart_alpha_data_preprocessor.py:31-53 | with a well-formed class-image batch: no error; text is the instance texts then the class texts; img is the batch of the instance images then the class images, of the summed length; resolution and aspect_ratio are merged and stacked alike when present; the class-image dict loses exactly the popped keys |
| `PixArt.MissingClassKeyRaises` | diffengine/models/editors/pixart_alpha/pixart_alpha_data_preprocessor.py:37-44 | if inputs has resolution or aspect_ratio and the class-image dict lacks it, forward raises KeyError for that key, after text and img have already been merged and popped |
| `PixArt.NoClassImage` | diffengine/models/editors/pixart_alpha/pixart_alpha_data_preprocessor.py:31-46 | without a class-image batch, text is unchanged and img becomes the stack of the original list, of the same length and order |
| `PixArt.ForwardInputs` | diffengine/models/editors/pixart_alpha/pixart_alpha_data_preprocessor.py:31-53 | forward neither adds nor removes a key of the inputs dict, whatever it raises, so it creates no resolution or aspect_ratio entry; every entry other than text, img, resolution, aspect_ratio and result_class_image is left as it was |
| `PixArt.ForwardData` | diffengine/models/editors/pixart_alpha/pixart_alpha_data_preprocessor.py:31-53 | only the inputs entry of the data dict changes; a data dict without inputs is a KeyError, and a non-dict inputs entry fails leaving the data dict unchanged |
| `PixArt.AppendPopped` | diffengine/models/editors/pixart_alpha/pixart_alpha_data_preprocessor.py:33-44 | one in-place append-and-pop leaves the data dict and error of `MergeFromClass`, pop before addition |
| `PixArt.StackInPlace` | diffengine/models/editors/pixart_alpha/pixart_alpha_data_preprocessor.py:46-53 | one in-place stack leaves the data dict and error of `StackKey` |
| `PixArt.MergeClassBatchInPlace` | diffengine/models/editors/pixart_alpha/pixart_alpha_data_preprocessor.py:31-44 | the merge phase, done in place, leaves the data dict and error of `MergeClassBatch` |
| `PixArt.StackBatchInPlace` | diffengine/models/editors/pixart_alpha/pixart_alpha_data_preprocessor.py:46-53 | the stack phase, done in place, leaves the data dict and error of `StackBatch` |
| `PixArt.PixArtAlphaDataPreprocessor.Forward` | diffengine/models/editors/pixart_alpha/pixart_alpha_data_preprocessor.py:31-53 | updating the data object in place leaves exactly the data dict and error given by `ForwardData`, whose properties are the lemmas above |

## Left out

- `random_irregular_mask`, `get_irregular_mask` and `brush_stroke_mask` (loading.py:123-349) are not modelled. They draw with floating-point trigonometry, normal sampling, OpenCV and PIL, and `get_irregular_mask` loops with no bound. The `irregular` and `ff` branches of `LoadMask.Transform` therefore take the selected generator's outcome (a mask or an error) as a parameter.
- Randomness is not modelled as such. Each `np.random.randint` result is a parameter constrained to its half-open range.
- `Bbox.RandomBboxOf`: numpy's `randint` takes int64 bounds, so bounds outside int64 raise ValueError. The model uses unbounded integers and does not capture that limit. With scalar bounds `randint` returns a Python int, so the additions at loading.py:85-86 are unbounded, as in the model.
- `random_bbox` takes the image height and width as two naturals. An `img_shape` with other than two leading entries, or with negative sizes, is not modelled. `LoadMask` always passes `(height, width)` of a PIL image.
- Python's `bool` counts as `int` in `is_tuple_of`. The argument model has no separate booleans, because a bool would be passed as an `IntArg`.
- `LoadMask.__init__` asserts that the config is a dict. The model types the config as a map, so a non-dict config cannot be expressed.
- The mask's dtype is fixed to uint8, the default. The `dtype` parameter of `bbox2mask` is not modelled.
- `super().forward(data)` (pixart_alpha_data_preprocessor.py:54) is not modelled. It is the training framework's device casting, which this model cannot see.
- `torch.stack` is modelled only as "a non-empty list of tensors becomes a batch of the same elements in order". Tensor shapes, and the error for mismatched shapes, are not modelled.
- Nested dicts are values inside the data dict. If another reference to `data["inputs"]` or to the class-image dict existed, the model would not show that alias changing.
- `a + b` in forward is modelled as list concatenation. Any other pair of operand types is a TypeError; every combination that Python or torch would accept otherwise is not modelled.
- The error under `NotADict` stands for the AttributeError or TypeError Python raises when a non-dict value is used as a dict. Its exact class depends on the value's type.
- The registry decorators and the configuration files under `configs/` hold no behaviour and are not modelled.
