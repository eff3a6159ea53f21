/**
 The semantic-segmentation image processor of one model. It is configured
 once, at construction, and then read by every call: `CollateFn` gives the
 batch collation plan, `ProcessOneSample` assembles one sample's record, and
 `Call` normalises a sample's columns before assembling it.
 */
module SegProcessor {
  import opened SegTypes
  import Keys
  import opened Columns
  import Augment
  import Facade
  import Assembly

  const NOT_IMPLEMENTED_MESSAGE: string :=
    "requires_column_info=True not implemented for semantic segmentation tasks."

  class SemanticSegImageProcessor {
    const prefix: string
    const size: int
    const imgTransforms: seq<string>
    const gtTransforms: seq<string>
    const normType: Option<string>
    const maxImgNumPerCol: int
    const missingValueStrategy: string
    const requiresColumnInfo: bool
    /** The composed training augmentation, in order. */
    const trainTransforms: seq<Aug>

    ghost predicate Valid()
    {
      maxImgNumPerCol >= 1
    }

    /** `modelPrefix` and `modelImageSize` are what the model descriptor
        exposes. A non-positive image cap is reset to 1. */
    constructor (modelPrefix: string, modelImageSize: int, imgTransforms: seq<string>, gtTransforms: seq<string>,
                 trainTransforms: seq<string>, normType: Option<string>, maxImgNumPerCol: int,
                 missingValueStrategy: string, requiresColumnInfo: bool)
      ensures Valid()
      ensures this.maxImgNumPerCol >= 1
      ensures maxImgNumPerCol > 0 ==> this.maxImgNumPerCol == maxImgNumPerCol
      ensures maxImgNumPerCol <= 0 ==> this.maxImgNumPerCol == 1
      ensures this.trainTransforms == Augment.Recognized(trainTransforms)
      ensures prefix == modelPrefix && size == modelImageSize
      ensures this.imgTransforms == imgTransforms && this.gtTransforms == gtTransforms
      ensures this.normType == normType && this.missingValueStrategy == missingValueStrategy
      ensures this.requiresColumnInfo == requiresColumnInfo
    {
      var composed := GetTrainTransforms(Some(trainTransforms));
      this.imgTransforms, this.gtTransforms := imgTransforms, gtTransforms;
      prefix := modelPrefix;
      this.missingValueStrategy := missingValueStrategy;
      this.requiresColumnInfo := requiresColumnInfo;
      size := modelImageSize;
      this.normType := normType;
      var cap := maxImgNumPerCol;
      if cap <= 0 {
        cap := 1;
      }
      this.maxImgNumPerCol := cap;
      this.trainTransforms := composed.value;
    }

    function ImageKey(): string
    {
      Keys.ImageKey(prefix)
    }

    function LabelKey(): string
    {
      Keys.LabelKey(prefix)
    }

    function ImageValidNumKey(): string
    {
      Keys.ValidNumKey(prefix)
    }

    function ImageColumnPrefix(): string
    {
      Keys.ImageColumnPrefix(prefix)
    }

    /** The collation plan: when column information is requested, the
        NotImplementedError value (returned, not raised) and no plan;
        otherwise exactly three entries, zero padding for the image and
        label keys and stacking for the valid count. */
    method CollateFn() returns (r: CollateResult)
      ensures r.NotImplemented? <==> requiresColumnInfo
      ensures r.NotImplemented? ==> r.message == NOT_IMPLEMENTED_MESSAGE
      ensures r.Plan? ==>
        && r.collators.Keys == Keys.RecordKeys(prefix)
        && |r.collators| == 3
        && r.collators[Keys.ImageKey(prefix)] == Pad(0)
        && r.collators[Keys.ValidNumKey(prefix)] == Stack
        && r.collators[Keys.LabelKey(prefix)] == Pad(0)
    {
      var fn: map<string, Collator> := map[];
      if requiresColumnInfo {
        return NotImplemented(NOT_IMPLEMENTED_MESSAGE);
      }
      Keys.KeysDistinct(prefix);
      fn := fn + map[ImageKey() := Pad(0), ImageValidNumKey() := Stack, LabelKey() := Pad(0)];
      return Plan(fn);
    }

    /** Assembles one sample: resolves the columns, visits at most the first
        `maxImgNumPerCol` image references, skips those that do not decode,
        pairs each kept image with the mask at its own position, and returns
        the record of the stacked images, their count and the stacked masks. */
    method ProcessOneSample(imageFeatures: map<string, FeatureValue>, featureModalities: Modalities, isTraining: bool,
                            opensImage: Ref -> bool, opensMask: Ref -> bool, coin: nat -> bool)
      returns (r: Result<map<string, Entry>, ProcError>)
      requires Valid()
      ensures r == Assembly.Sample(prefix, maxImgNumPerCol, trainTransforms,
                                   Assembly.Inputs(imageFeatures, featureModalities, isTraining, opensImage, opensMask, coin))
    {
      ghost var inp := Assembly.Inputs(imageFeatures, featureModalities, isTraining, opensImage, opensMask, coin);
      var imageColumn, annotationColumn := ResolveColumns(featureModalities);
      if imageColumn.None? {
        return Failure(ImageColumnUnbound);
      }
      if imageColumn.value !in imageFeatures {
        return Failure(MissingKey(imageColumn));
      }
      var perColImageFeatures := Elements(imageFeatures[imageColumn.value]);
      var perColGtFeatures: seq<Ref> := [];
      if isTraining || annotationColumn.Some? {
        if annotationColumn.None? || annotationColumn.value !in imageFeatures {
          return Failure(MissingKey(annotationColumn));
        }
        perColGtFeatures := Elements(imageFeatures[annotationColumn.value]);
      }
      var selected := perColImageFeatures[..Assembly.Min(maxImgNumPerCol, |perColImageFeatures|)];
      ghost var c := Assembly.ContextOf(inp, trainTransforms);
      assert selected == Assembly.Selected(inp, maxImgNumPerCol);
      assert c.gtRefs == perColGtFeatures && c.annotation == annotationColumn;

      var images: seq<Tensor> := [];
      var gts: seq<Tensor> := [];
      var idx := 0;
      while idx < |selected|
        invariant 0 <= idx <= |selected|
        invariant Assembly.Collect(c, selected, idx) == Success(Assembly.Stacks(images, gts))
      {
        var imgFeature := selected[idx];
        if !opensImage(imgFeature) {
          // a reference that does not decode is skipped
          idx := idx + 1;
          continue;
        }
        var gt: Option<Ref> := None;
        if Assembly.Truthy(annotationColumn) {
          if idx >= |perColGtFeatures| {
            r := Failure(MaskIndexOutOfRange(idx));
            Assembly.CollectStops(c, selected, idx + 1, |selected|);
            return;
          }
          var gtFeature := perColGtFeatures[idx];
          if !opensMask(gtFeature) {
            r := Failure(MaskDecodeFailed(idx));
            Assembly.CollectStops(c, selected, idx + 1, |selected|);
            return;
          }
          gt := Some(gtFeature);
        }
        var img: Tensor;
        var processedGt: Option<Tensor> := None;
        if isTraining {
          // the |images|-th draw of this call decides the augmentation
          var aug: seq<Aug> := [];
          if coin(|images|) {
            aug := trainTransforms;
          }
          if gt.None? {
            r := Failure(MaskUnbound(idx));
            Assembly.CollectStops(c, selected, idx + 1, |selected|);
            return;
          }
          img := Tensor(ImageRole, idx, imgFeature, aug);
          processedGt := Some(Tensor(MaskRole, idx, gt.value, aug));
        } else {
          img := Tensor(ImageRole, idx, imgFeature, []);
          if annotationColumn.Some? {
            if gt.None? {
              r := Failure(MaskUnbound(idx));
              Assembly.CollectStops(c, selected, idx + 1, |selected|);
              return;
            }
            processedGt := Some(Tensor(MaskRole, idx, gt.value, []));
          }
        }
        images := images + [img];
        if isTraining || annotationColumn.Some? {
          gts := gts + [processedGt.value];
        }
        idx := idx + 1;
      }
      r := Success(map[ImageKey() := Stacked(images), ImageValidNumKey() := Count(|images|), LabelKey() := Stacked(gts)]);
    }

    /** The entry point: wraps every single-string column into a one-element
        list, then assembles the sample. */
    method Call(images: map<string, FeatureValue>, featureModalities: Modalities, isTraining: bool,
                opensImage: Ref -> bool, opensMask: Ref -> bool, coin: nat -> bool)
      returns (r: Result<map<string, Entry>, ProcError>)
      requires Valid()
      ensures r == Assembly.Sample(prefix, maxImgNumPerCol, trainTransforms,
                                   Assembly.Inputs(Facade.NormalizeInputs(images), featureModalities, isTraining,
                                                   opensImage, opensMask, coin))
    {
      var normalized := Facade.NormalizeInputs(images);
      r := ProcessOneSample(normalized, featureModalities, isTraining, opensImage, opensMask, coin);
    }

    /** Builds the composed training augmentation: one flip per occurrence
        of the recognised name, in order; other names are dropped. A missing
        list cannot be iterated and raises. */
    static method GetTrainTransforms(trainTransforms: Option<seq<string>>) returns (r: Result<seq<Aug>, ProcError>)
      ensures trainTransforms.None? ==> r == Failure(TrainTransformsNone)
      ensures trainTransforms.Some? ==> r == Success(Augment.Recognized(trainTransforms.value))
    {
      if trainTransforms.None? {
        return Failure(TrainTransformsNone);
      }
      var names := trainTransforms.value;
      var trainTrans: seq<Aug> := [];
      for i := 0 to |names|
        invariant trainTrans == Augment.Recognized(names[..i])
      {
        assert names[..i + 1][..i] == names[..i];
        if names[i] == Augment.RANDOM_HORIZONTAL_FLIP {
          trainTrans := trainTrans + [Augment.Flip];
        }
      }
      assert names[..|names|] == names;
      return Success(trainTrans);
    }
  }
}
