# Semantic-segmentation image processor, modelled in Dafny

This project models the sample-assembly and configuration logic of
`SemanticSegImageProcessor`, the AutoGluon multimodal data processor. It turns
one row of a semantic-segmentation dataset into a record of stacked image
tensors, stacked ground-truth mask tensors and a valid-image count. The model
covers the following:

- **Configuration.** The constructor coerces a non-positive image cap to 1 and
  builds the composed training augmentation from the configured names. Only
  `"random_horizontal_flip"` is recognised; other names are dropped.
- **Output keys.** The keys are `{prefix}_image`, `{prefix}_label` and
  `{prefix}_image_valid_num`, plus the column prefix `{prefix}_image_column`.
  They are pairwise distinct, and two different prefixes share no key.
- **Collation plan.** It holds zero padding for the image and label keys and
  stacking for the count. When column information is requested, the
  `NotImplementedError` object is *returned* instead.
- **Column resolution.** One ordered scan of the modality map. The last column
  tagged `semantic_segmentation_img` is the image column. The last column
  tagged `semantic_segmentation_gt` is the annotation column, if there is one.
- **Per-sample loop.** At most the first `max_img_num_per_col` image references
  are visited, in order. An image that does not decode is skipped silently. A
  kept image is paired with the ground-truth reference at the *same* position.
  A mask that does not decode, or a ground-truth list that is too short, fails
  the whole call. In training mode the k-th draw of the call decides whether
  the composed augmentation is applied, and it is applied to the image and its
  mask alike.
- **Entry point.** A column whose value is a single string is wrapped into a
  one-element list. Other values are passed on unchanged.

Decoding is an oracle per reference (`opensImage`, `opensMask: Ref -> bool`).
The random draws are an injected stream (`coin: nat -> bool`, where `coin(k)`
means that the k-th uniform draw was below 0.5). A processed tensor is an
opaque value tagged with its role, its source position, the reference it came
from and the augmentation applied to it. A stacked tensor is the sequence of
its items, and the empty tensor is the empty sequence.

Python exceptions are modelled as values of `ProcError`:

- an image column that was never bound (`ImageColumnUnbound`);
- a column lookup that is missing from the sample (`MissingKey`), including
  the lookup of the absent ground-truth column in training mode
  (`MissingKey(None)`);
- an index past the ground-truth list (`MaskIndexOutOfRange`);
- a mask decode failure (`MaskDecodeFailed`);
- a mask that is needed but was never read (`MaskUnbound`);
- iterating a missing augmentation list (`TrainTransformsNone`).

The code decides whether to read the mask with `if annotation_column:`, which
tests Python truthiness. Other places test `annotation_column is not None`. So
a ground-truth column named `""` is looked up but never read. As soon as an
image decodes, the code uses an unbound `gt`. The model keeps this behaviour
(`Assembly.Truthy`, error `MaskUnbound`).

Modules: `SegTypes` (types.dfy), `Keys` (keys.dfy), `Columns` (columns.dfy),
`Augment` (augment.dfy), `Facade` (facade.dfy), `Assembly` (assembly.dfy,
the per-sample specification and its lemmas), `SegProcessor` (processor.dfy,
the class) and `Scenarios` (scenarios.dfy, two worked samples).

## Model

| member | source | states |
|---|---|---|
| Keys.KeysDistinct | multimodal/src/autogluon/multimodal/data/process_semantic_seg_img.py:113-127 | The image, valid-count and label keys of one prefix are three distinct record keys; the column prefix `{prefix}_image_column` extends the image key and is a fourth, distinct name. |
| Keys.KeysNamespaced | multimodal/src/autogluon/multimodal/data/process_semantic_seg_img.py:113-127 | Two different prefixes share no key, whatever the roles: every key is namespaced by its model prefix. |
| Columns.ResolveColumns | multimodal/src/autogluon/multimodal/data/process_semantic_seg_img.py:187-192 | The scan returns the last column tagged as segmentation image and the last tagged as ground truth (each unset if none). |
| Columns.LastTaggedSpec | multimodal/src/autogluon/multimodal/data/process_semantic_seg_img.py:187-192 | No column is found iff no item carries the tag; a found column is that of a tagged item after which no item carries the tag. |
| Columns.LastTaggedAppend | multimodal/src/autogluon/multimodal/data/process_semantic_seg_img.py:187-192 | Items with other tags never change the answer; a later tagged item always replaces it (last match wins). |
| Augment.RecognizedCount | multimodal/src/autogluon/multimodal/data/process_semantic_seg_img.py:259-264 | The composed list holds one flip with probability 1 per occurrence of `random_horizontal_flip`, and nothing else. |
| Augment.RecognizedConcat | multimodal/src/autogluon/multimodal/data/process_semantic_seg_img.py:259-264 | Filtering keeps input order: the result for `a + b` is the result for `a` followed by the result for `b`. |
| Augment.UnrecognizedDropped | multimodal/src/autogluon/multimodal/data/process_semantic_seg_img.py:259-264 | A list of unrecognised names yields the empty composition, without an error. |
| Facade.NormalizeInputs | multimodal/src/autogluon/multimodal/data/process_semantic_seg_img.py:255 | Normalisation keeps exactly the same column names. |
| Facade.NormalizeEffect | multimodal/src/autogluon/multimodal/data/process_semantic_seg_img.py:255 | A string column becomes the one-element list of that string; any other value is unchanged; no string value remains. |
| Facade.NormalizeIdempotent | multimodal/src/autogluon/multimodal/data/process_semantic_seg_img.py:255 | Normalising an already normalised sample changes nothing. |
| Assembly.SurvivorsSpec | multimodal/src/autogluon/multimodal/data/process_semantic_seg_img.py:198-203 | The surviving positions are exactly the decodable positions among those visited, each once, in increasing order, and no more than were visited. |
| Assembly.SurvivorsNone | multimodal/src/autogluon/multimodal/data/process_semantic_seg_img.py:198-203 | When no visited reference decodes, nothing survives. |
| Assembly.CollectStops | multimodal/src/autogluon/multimodal/data/process_semantic_seg_img.py:204-207 | Once an iteration raises, later iterations do not run and the error is the call's. |
| Assembly.CollectKept | multimodal/src/autogluon/multimodal/data/process_semantic_seg_img.py:198-222 | After a successful loop, image j comes from the j-th surviving position, with the j-th draw's augmentation. Mask j, when masks are produced, comes from the ground-truth list at that same position with that same augmentation. Otherwise the mask list is empty. |
| Assembly.StepOutcome | multimodal/src/autogluon/multimodal/data/process_semantic_seg_img.py:199-222 | One iteration raises exactly when its image decodes and its mask cannot be had; a failed image decode never raises. |
| Assembly.CollectOutcome | multimodal/src/autogluon/multimodal/data/process_semantic_seg_img.py:198-222 | The loop succeeds iff no visited position is fatal; otherwise it raises the error of the first fatal position, which names that index. |
| Assembly.SampleColumnErrors | multimodal/src/autogluon/multimodal/data/process_semantic_seg_img.py:187-196 | With no image column, the call fails with an unbound name. Training without a ground-truth column fails on the lookup of the missing column. A successful call found all the columns it looked up. |
| Assembly.SampleRecord | multimodal/src/autogluon/multimodal/data/process_semantic_seg_img.py:198-230 | A successful record has exactly the three keys. Its count equals the number of stacked images, which is at most the cap and at most the column length. The images are those at the decodable visited positions, in order, each mask aligned with its image. |
| Assembly.SampleOutcome | multimodal/src/autogluon/multimodal/data/process_semantic_seg_img.py:198-222 | With the columns found, image decode failures are swallowed. The call fails iff some visited decodable image lacks its mask, and then it raises the error of the first such image. |
| Assembly.SampleEvalWithoutAnnotation | multimodal/src/autogluon/multimodal/data/process_semantic_seg_img.py:195-228 | In evaluation mode without a ground-truth column, the call always succeeds and the label entry is the empty tensor. |
| Assembly.SampleAllSkipped | multimodal/src/autogluon/multimodal/data/process_semantic_seg_img.py:198-230 | If no visited image decodes, the record has count 0 and two empty tensors, and nothing is raised. |
| Assembly.SampleIgnoresTail | multimodal/src/autogluon/multimodal/data/process_semantic_seg_img.py:198 | References past the cap are never looked at: appending references to a column that already holds `cap` of them leaves the result unchanged. |
| Scenarios.CapTwoKeepsFirstTwo | multimodal/src/autogluon/multimodal/data/process_semantic_seg_img.py:198-230 | Three decodable image/mask pairs with cap 2 in evaluation mode give count 2 and the first two pairs, in order. |
| Scenarios.CorruptImageSkipped | multimodal/src/autogluon/multimodal/data/process_semantic_seg_img.py:198-230 | The same sample with the second image corrupt gives count 1 and only the first pair. |
| SegProcessor.SemanticSegImageProcessor.constructor | multimodal/src/autogluon/multimodal/data/process_semantic_seg_img.py:88-111 | The effective cap is the argument when positive and 1 otherwise. The composed augmentation is the filtered list. The other settings are stored as given. |
| SegProcessor.SemanticSegImageProcessor.CollateFn | multimodal/src/autogluon/multimodal/data/process_semantic_seg_img.py:140-153 | The NotImplementedError value is returned iff column information is requested. Otherwise the plan has exactly three entries: Pad(0) for the image key, Stack for the count key and Pad(0) for the label key. These are the keys of every successful record. |
| SegProcessor.SemanticSegImageProcessor.ProcessOneSample | multimodal/src/autogluon/multimodal/data/process_semantic_seg_img.py:183-231 | The imperative loop, with its skips and early failures, returns exactly the specified result for the processor's prefix, cap and augmentation. |
| SegProcessor.SemanticSegImageProcessor.Call | multimodal/src/autogluon/multimodal/data/process_semantic_seg_img.py:255-257 | The entry point returns the specified result of the normalised sample. |
| SegProcessor.SemanticSegImageProcessor.GetTrainTransforms | multimodal/src/autogluon/multimodal/data/process_semantic_seg_img.py:259-264 | The loop builds exactly the filtered composition; a missing list raises a type error. |

## Left out

- Image decoding (`PIL.Image.open`, `convert`, `ImageFile.LOAD_TRUNCATED_IMAGES`) is an oracle per reference. The `image_mode` argument of `process_one_sample` is not modelled; the entry point always uses `"RGB"`. Releasing the image handle on every exit path is not modelled.
- The torchvision transforms, `construct_image_processor`, `image_mean_std` and `transforms.Normalize` are external and work in floating point. A processed tensor records only its role, source and augmentation. `normType` is stored but the mean/std lookup is not modelled.
- Tensor shapes and the contents of `torch.cat` / `torch.tensor([])` are float tensor work. Stacks are sequences of tagged items.
- `PadCollator` and `StackCollator` are defined in another module and appear only as tags. Their collation behaviour is not part of this model.
- Python's global `random.random()` becomes the injected draw stream `coin`.
- Logging and the BICUBIC import fallback have no behaviour to state.
- The constants module is not part of this model. The values used are `image`, `label`, `image_valid_num`, `column`, `semantic_segmentation_img` and `semantic_segmentation_gt`.
- SegProcessor.SemanticSegImageProcessor.constructor: takes the augmentation names as a list and the cap as an integer. With the source's default `train_transforms=None` the source raises a TypeError in `get_train_transforms`; `GetTrainTransforms` models that error, but the constructor models only successful construction. A cap of `None` likewise raises on the comparison and is not modelled.
- The `model` argument is replaced by the two values read from it, the prefix and the image size. `val_transforms` is accepted and ignored by the source, so the constructor does not take it.
- The `image_column_names` and `per_gpu_batch_size` arguments of `collate_fn` are ignored by the source and are not modelled.
- `missing_value_strategy` is stored but never consulted by the source; the skip behaviour is built in.
- The modality map is modelled as its ordered sequence of (column, modality) items. The model does not require the column names to be distinct, as a Python dict would guarantee.
- Exception messages are not modelled, except the message of the returned NotImplementedError.
