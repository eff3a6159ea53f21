/**
 The sample assembler as a specification: the per-image loop over the first
 `cap` references of the image column, one step per reference, and the
 record built from what survives. Decoding is an oracle per reference, the
 random draws are an injected stream, and a processed tensor is tagged with
 the reference it came from.
 */
module Assembly {
  import opened SegTypes
  import opened Keys
  import opened Columns

  /** The inputs of one call: the sample's columns, its modality map, the
      mode, which references decode as a colour image and as a grayscale
      mask, and the stream of coin draws (`coin(k)` holds when the k-th
      uniform draw of the call is below 0.5). */
  datatype Inputs = Inputs(
    features: map<string, FeatureValue>,
    modalities: Modalities,
    isTraining: bool,
    opensImage: Ref -> bool,
    opensMask: Ref -> bool,
    coin: nat -> bool)

  /** What the per-image loop reads besides its own lists. `gtRefs` is the
      ground-truth column's element list when it was looked up, else []. */
  datatype Context = Context(
    isTraining: bool,
    annotation: Option<string>,
    gtRefs: seq<Ref>,
    opensImage: Ref -> bool,
    opensMask: Ref -> bool,
    coin: nat -> bool,
    augmentation: seq<Aug>)

  /** The two lists the loop appends to. */
  datatype Stacks = Stacks(images: seq<Tensor>, masks: seq<Tensor>)

  function Min(a: nat, b: nat): nat
  {
    if a <= b then a else b
  }

  /** Python truthiness of the annotation column name: set and non-empty. */
  predicate Truthy(column: Option<string>)
  {
    column.Some? && column.value != ""
  }

  /** A mask accompanies every kept image in training mode, and whenever an
      annotation column is set. */
  predicate MasksProduced(c: Context)
  {
    c.isTraining || c.annotation.Some?
  }

  /** Reading the mask at the index of a decoded image: only when the
      annotation column name is truthy; an index past the ground-truth list
      and a mask that does not decode both raise. */
  function ReadMask(c: Context, idx: nat): Result<Option<Ref>, ProcError>
  {
    if !Truthy(c.annotation) then Success(None)
    else if idx >= |c.gtRefs| then Failure(MaskIndexOutOfRange(idx))
    else if !c.opensMask(c.gtRefs[idx]) then Failure(MaskDecodeFailed(idx))
    else Success(Some(c.gtRefs[idx]))
  }

  /** One iteration of the loop, for the reference at position `idx`. */
  function Step(c: Context, refs: seq<Ref>, idx: nat, acc: Stacks): Result<Stacks, ProcError>
    requires idx < |refs|
  {
    if !c.opensImage(refs[idx]) then Success(acc)
    else match ReadMask(c, idx)
      case Failure(e) => Failure(e)
      case Success(gt) =>
        if c.isTraining then
          // the draw of this iteration is the |acc.images|-th of the call
          var aug := if c.coin(|acc.images|) then c.augmentation else [];
          if gt.None? then Failure(MaskUnbound(idx))
          else Success(Stacks(acc.images + [Tensor(ImageRole, idx, refs[idx], aug)],
                              acc.masks + [Tensor(MaskRole, idx, gt.value, aug)]))
        else if c.annotation.Some? then
          if gt.None? then Failure(MaskUnbound(idx))
          else Success(Stacks(acc.images + [Tensor(ImageRole, idx, refs[idx], [])],
                              acc.masks + [Tensor(MaskRole, idx, gt.value, [])]))
        else Success(Stacks(acc.images + [Tensor(ImageRole, idx, refs[idx], [])], acc.masks))
  }

  /** The loop after its first `n` iterations. */
  function Collect(c: Context, refs: seq<Ref>, n: nat): Result<Stacks, ProcError>
    requires n <= |refs|
  {
    if n == 0 then Success(Stacks([], []))
    else match Collect(c, refs, n - 1)
      case Failure(e) => Failure(e)
      case Success(acc) => Step(c, refs, n - 1, acc)
  }

  /** Once the loop has raised, later iterations do not run. */
  lemma {:induction false} CollectStops(c: Context, refs: seq<Ref>, i: nat, n: nat)
    requires i <= n <= |refs|
    requires Collect(c, refs, i).Failure?
    ensures Collect(c, refs, n) == Collect(c, refs, i)
    decreases n
  {
    if n > i {
      CollectStops(c, refs, i, n - 1);
    }
  }

  // ---------------------------------------------------------------------
  // Independent description of the loop's result

  /** The positions below `n` whose reference decodes, in increasing order. */
  function Survivors(opens: Ref -> bool, refs: seq<Ref>, n: nat): seq<nat>
    requires n <= |refs|
  {
    if n == 0 then []
    else Survivors(opens, refs, n - 1) + (if opens(refs[n - 1]) then [n - 1] else [])
  }

  /** Survivors lists exactly the decodable positions below `n`, each once,
      in increasing order. */
  lemma {:induction false} SurvivorsSpec(opens: Ref -> bool, refs: seq<Ref>, n: nat)
    requires n <= |refs|
    ensures |Survivors(opens, refs, n)| <= n
    ensures forall j :: 0 <= j < |Survivors(opens, refs, n)| ==>
      Survivors(opens, refs, n)[j] < n && opens(refs[Survivors(opens, refs, n)[j]])
    ensures forall j, k :: 0 <= j < k < |Survivors(opens, refs, n)| ==>
      Survivors(opens, refs, n)[j] < Survivors(opens, refs, n)[k]
    ensures forall i :: 0 <= i < n && opens(refs[i]) ==> i in Survivors(opens, refs, n)
  {
    if n > 0 {
      SurvivorsSpec(opens, refs, n - 1);
    }
  }

  lemma {:induction false} SurvivorsNone(opens: Ref -> bool, refs: seq<Ref>, n: nat)
    requires n <= |refs|
    requires forall i :: 0 <= i < n ==> !opens(refs[i])
    ensures Survivors(opens, refs, n) == []
  {
    if n > 0 {
      SurvivorsNone(opens, refs, n - 1);
    }
  }

  /** The source positions of a list of tensors. */
  function Sources(ts: seq<Tensor>): seq<nat>
  {
    seq(|ts|, j requires 0 <= j < |ts| => ts[j].source)
  }

  /** The augmentation applied to the k-th kept image and its mask: the
      composed list when training and the k-th draw succeeds, else none. */
  function AugFor(c: Context, k: nat): seq<Aug>
  {
    if c.isTraining && c.coin(k) then c.augmentation else []
  }

  /** What the lists hold after a successful run over the first `n`
      references: image j comes from the j-th decodable position, carries
      the j-th draw's augmentation, and the mask at j (when masks are
      produced) comes from the ground-truth list at that same position with
      that same augmentation. */
  ghost predicate Kept(c: Context, refs: seq<Ref>, n: nat, st: Stacks)
    requires n <= |refs|
  {
    && Sources(st.images) == Survivors(c.opensImage, refs, n)
    && (forall j :: 0 <= j < |st.images| ==>
          && st.images[j].role == ImageRole
          && st.images[j].source < |refs|
          && st.images[j].origin == refs[st.images[j].source]
          && st.images[j].augmentation == AugFor(c, j))
    && (if MasksProduced(c) then
          && |st.masks| == |st.images|
          && (forall j :: 0 <= j < |st.masks| ==>
                && st.masks[j].role == MaskRole
                && st.masks[j].source == st.images[j].source
                && st.masks[j].source < |c.gtRefs|
                && st.masks[j].origin == c.gtRefs[st.masks[j].source]
                && st.masks[j].augmentation == st.images[j].augmentation)
        else st.masks == [])
  }

  lemma SourcesAppend(ts: seq<Tensor>, t: Tensor)
    ensures Sources(ts + [t]) == Sources(ts) + [t.source]
  {
  }

  /** A successful run keeps exactly the decodable images, index-aligned
      with their masks. */
  lemma {:induction false} CollectKept(c: Context, refs: seq<Ref>, n: nat)
    requires n <= |refs|
    ensures Collect(c, refs, n).Success? ==> Kept(c, refs, n, Collect(c, refs, n).value)
  {
    if n > 0 {
      CollectKept(c, refs, n - 1);
      var prev := Collect(c, refs, n - 1);
      if prev.Success? && c.opensImage(refs[n - 1]) {
        var acc := prev.value;
        var next := Step(c, refs, n - 1, acc);
        if next.Success? {
          var img := next.value.images[|acc.images|];
          assert next.value.images == acc.images + [img];
          SourcesAppend(acc.images, img);
        }
      }
    }
  }

  /** The error an image at `idx` raises once it has decoded, if any. */
  function StepError(c: Context, idx: nat): Option<ProcError>
  {
    match ReadMask(c, idx)
    case Failure(e) => Some(e)
    case Success(gt) => if MasksProduced(c) && gt.None? then Some(MaskUnbound(idx)) else None
  }

  /** Position `i` makes the call fail: its image decodes and its mask
      cannot be had. An image that does not decode is never fatal. */
  predicate Fatal(c: Context, refs: seq<Ref>, i: nat)
    requires i < |refs|
  {
    c.opensImage(refs[i]) && StepError(c, i).Some?
  }

  /** A step raises exactly at a fatal position, with that position's error. */
  lemma StepOutcome(c: Context, refs: seq<Ref>, idx: nat, acc: Stacks)
    requires idx < |refs|
    ensures Step(c, refs, idx, acc).Failure? <==> Fatal(c, refs, idx)
    ensures Step(c, refs, idx, acc).Failure? ==> StepError(c, idx) == Some(Step(c, refs, idx, acc).error)
  {
  }

  /** The run succeeds exactly when no position is fatal; otherwise it fails
      with the error of the first fatal position. */
  lemma {:induction false} CollectOutcome(c: Context, refs: seq<Ref>, n: nat)
    requires n <= |refs|
    ensures Collect(c, refs, n).Success? <==> forall i :: 0 <= i < n ==> !Fatal(c, refs, i)
    ensures Collect(c, refs, n).Failure? ==>
      var e := Collect(c, refs, n).error;
      && AtIndex(e) && e.index < n
      && Fatal(c, refs, e.index) && StepError(c, e.index) == Some(e)
      && forall i :: 0 <= i < e.index ==> !Fatal(c, refs, i)
  {
    if n > 0 {
      CollectOutcome(c, refs, n - 1);
      var prev := Collect(c, refs, n - 1);
      if prev.Success? {
        StepOutcome(c, refs, n - 1, prev.value);
      }
    }
  }

  // ---------------------------------------------------------------------
  // The whole call

  function ImageColumn(inp: Inputs): Option<string>
  {
    LastTagged(inp.modalities, SEMANTIC_SEGMENTATION_IMG)
  }

  function AnnotationColumn(inp: Inputs): Option<string>
  {
    LastTagged(inp.modalities, SEMANTIC_SEGMENTATION_GT)
  }

  /** The lookups before the loop succeed: the image column exists and is in
      the sample, and so is the annotation column whenever it is looked up. */
  predicate ColumnsFound(inp: Inputs)
  {
    && ImageColumn(inp).Some?
    && ImageColumn(inp).value in inp.features
    && ((inp.isTraining || AnnotationColumn(inp).Some?) ==>
          AnnotationColumn(inp).Some? && AnnotationColumn(inp).value in inp.features)
  }

  /** The references the loop visits: at most the first `cap`. */
  function Selected(inp: Inputs, cap: nat): seq<Ref>
    requires ColumnsFound(inp)
  {
    var refs := Elements(inp.features[ImageColumn(inp).value]);
    refs[..Min(cap, |refs|)]
  }

  function ContextOf(inp: Inputs, augmentation: seq<Aug>): Context
    requires ColumnsFound(inp)
  {
    var annotation := AnnotationColumn(inp);
    var gtRefs := if inp.isTraining || annotation.Some? then Elements(inp.features[annotation.value]) else [];
    Context(inp.isTraining, annotation, gtRefs, inp.opensImage, inp.opensMask, inp.coin, augmentation)
  }

  /** The sample output record. */
  function Record(prefix: string, st: Stacks): map<string, Entry>
  {
    map[ImageKey(prefix) := Stacked(st.images),
        ValidNumKey(prefix) := Count(|st.images|),
        LabelKey(prefix) := Stacked(st.masks)]
  }

  /** One call of the assembler, for a processor with key prefix `prefix`,
      image cap `cap` and composed training augmentation `augmentation`. */
  function Sample(prefix: string, cap: nat, augmentation: seq<Aug>, inp: Inputs): Result<map<string, Entry>, ProcError>
  {
    if ImageColumn(inp).None? then Failure(ImageColumnUnbound)
    else if ImageColumn(inp).value !in inp.features then Failure(MissingKey(ImageColumn(inp)))
    else if !ColumnsFound(inp) then Failure(MissingKey(AnnotationColumn(inp)))
    else
      var selected := Selected(inp, cap);
      match Collect(ContextOf(inp, augmentation), selected, |selected|)
      case Failure(e) => Failure(e)
      case Success(st) => Success(Record(prefix, st))
  }

  /** The failures before the loop: no image column is an unbound-name
      error, and training without a ground-truth column fails on the lookup
      of the missing column. */
  lemma SampleColumnErrors(prefix: string, cap: nat, augmentation: seq<Aug>, inp: Inputs)
    ensures ImageColumn(inp).None? ==> Sample(prefix, cap, augmentation, inp) == Failure(ImageColumnUnbound)
    ensures (ImageColumn(inp).Some? && ImageColumn(inp).value in inp.features &&
             inp.isTraining && AnnotationColumn(inp).None?) ==>
      Sample(prefix, cap, augmentation, inp) == Failure(MissingKey(None))
    ensures Sample(prefix, cap, augmentation, inp).Success? ==> ColumnsFound(inp)
  {
  }

  /** The record of a successful call: exactly the three keys, the valid
      count equal to the number of stacked images and at most the cap and
      the column length, the images those of the decodable positions among
      the first `cap`, in order, and each mask aligned with its image. */
  lemma SampleRecord(prefix: string, cap: nat, augmentation: seq<Aug>, inp: Inputs)
    requires Sample(prefix, cap, augmentation, inp).Success?
    ensures ColumnsFound(inp)
    ensures var rec := Sample(prefix, cap, augmentation, inp).value;
      && rec.Keys == RecordKeys(prefix)
      && |rec| == 3
      && rec[ImageKey(prefix)].Stacked?
      && rec[LabelKey(prefix)].Stacked?
      && rec[ValidNumKey(prefix)] == Count(|rec[ImageKey(prefix)].items|)
      && |rec[ImageKey(prefix)].items| <= cap
      && |rec[ImageKey(prefix)].items| <= |Elements(inp.features[ImageColumn(inp).value])|
      && Kept(ContextOf(inp, augmentation), Selected(inp, cap), |Selected(inp, cap)|,
              Stacks(rec[ImageKey(prefix)].items, rec[LabelKey(prefix)].items))
  {
    KeysDistinct(prefix);
    var selected := Selected(inp, cap);
    var c := ContextOf(inp, augmentation);
    CollectKept(c, selected, |selected|);
    SurvivorsSpec(c.opensImage, selected, |selected|);
    var st := Collect(c, selected, |selected|).value;
    assert |Sources(st.images)| == |st.images|;
  }

  /** Decode failures of images are swallowed, mask failures are not: with
      the columns found, the call succeeds exactly when no visited image
      that decodes lacks its mask, and otherwise raises the error of the
      first such image. */
  lemma SampleOutcome(prefix: string, cap: nat, augmentation: seq<Aug>, inp: Inputs)
    requires ColumnsFound(inp)
    ensures var c := ContextOf(inp, augmentation);
      var selected := Selected(inp, cap);
      && (Sample(prefix, cap, augmentation, inp).Success? <==>
            forall i :: 0 <= i < |selected| ==> !Fatal(c, selected, i))
      && (Sample(prefix, cap, augmentation, inp).Failure? ==>
            var e := Sample(prefix, cap, augmentation, inp).error;
            && AtIndex(e) && e.index < |selected|
            && Fatal(c, selected, e.index) && StepError(c, e.index) == Some(e)
            && forall i :: 0 <= i < e.index ==> !Fatal(c, selected, i))
  {
    var selected := Selected(inp, cap);
    CollectOutcome(ContextOf(inp, augmentation), selected, |selected|);
  }

  /** In evaluation mode without a ground-truth column nothing in the loop
      can raise: the call succeeds and the label entry is the empty tensor. */
  lemma SampleEvalWithoutAnnotation(prefix: string, cap: nat, augmentation: seq<Aug>, inp: Inputs)
    requires !inp.isTraining && AnnotationColumn(inp).None?
    requires ImageColumn(inp).Some? && ImageColumn(inp).value in inp.features
    ensures Sample(prefix, cap, augmentation, inp).Success?
    ensures Sample(prefix, cap, augmentation, inp).value[LabelKey(prefix)] == Stacked([])
  {
    var c := ContextOf(inp, augmentation);
    var selected := Selected(inp, cap);
    CollectOutcome(c, selected, |selected|);
    CollectKept(c, selected, |selected|);
    KeysDistinct(prefix);
  }

  /** When none of the visited images decodes, the call succeeds with a
      valid count of 0 and two empty tensors. */
  lemma SampleAllSkipped(prefix: string, cap: nat, augmentation: seq<Aug>, inp: Inputs)
    requires ColumnsFound(inp)
    requires forall r :: r in Selected(inp, cap) ==> !inp.opensImage(r)
    ensures Sample(prefix, cap, augmentation, inp) ==
      Success(map[ImageKey(prefix) := Stacked([]), ValidNumKey(prefix) := Count(0), LabelKey(prefix) := Stacked([])])
  {
    var c := ContextOf(inp, augmentation);
    var selected := Selected(inp, cap);
    CollectOutcome(c, selected, |selected|);
    CollectKept(c, selected, |selected|);
    assert c.opensImage == inp.opensImage;
    forall i | 0 <= i < |selected| ensures !inp.opensImage(selected[i]) {
      assert selected[i] in Selected(inp, cap);
    }
    SurvivorsNone(c.opensImage, selected, |selected|);
    var st := Collect(c, selected, |selected|).value;
    assert |Sources(st.images)| == |st.images|;
  }

  /** References past the cap are never looked at: appending any further
      references to an image column that already holds `cap` of them does
      not change the result. */
  lemma SampleIgnoresTail(prefix: string, cap: nat, augmentation: seq<Aug>, inp: Inputs, extra: seq<Ref>)
    requires ImageColumn(inp).Some? && ImageColumn(inp) != AnnotationColumn(inp)
    requires ImageColumn(inp).value in inp.features
    requires inp.features[ImageColumn(inp).value].Refs?
    requires |inp.features[ImageColumn(inp).value].refs| >= cap
    ensures var col := ImageColumn(inp).value;
      var longer := inp.(features := inp.features[col := Refs(inp.features[col].refs + extra)]);
      Sample(prefix, cap, augmentation, longer) == Sample(prefix, cap, augmentation, inp)
  {
    var col := ImageColumn(inp).value;
    var rs := inp.features[col].refs;
    var longer := inp.(features := inp.features[col := Refs(rs + extra)]);
    assert ImageColumn(longer) == ImageColumn(inp);
    assert AnnotationColumn(longer) == AnnotationColumn(inp);
    assert ColumnsFound(longer) == ColumnsFound(inp);
    if ColumnsFound(inp) {
      assert (rs + extra)[..cap] == rs[..cap];
      assert Selected(longer, cap) == Selected(inp, cap);
      assert ContextOf(longer, augmentation) == ContextOf(inp, augmentation);
    }
  }
}
