/**
 Column resolution: which column of a sample holds the images and which one
 holds the ground-truth masks. The modality map is scanned in its order
 (a Python dict keeps insertion order); when several columns carry the same
 tag, the last one wins.
 */
module Columns {
  import opened SegTypes

  const SEMANTIC_SEGMENTATION_IMG: string := "semantic_segmentation_img"
  const SEMANTIC_SEGMENTATION_GT: string := "semantic_segmentation_gt"

  /** The feature-modality map as its sequence of (column, modality) items. */
  type Modalities = seq<(string, string)>

  /** The last column tagged `tag`, if any. */
  function LastTagged(mods: Modalities, tag: string): Option<string>
  {
    if |mods| == 0 then None
    else if mods[|mods| - 1].1 == tag then Some(mods[|mods| - 1].0)
    else LastTagged(mods[..|mods| - 1], tag)
  }

  /** LastTagged finds nothing exactly when no item carries the tag, and
      otherwise names the column of a tagged item after which no item carries
      the tag. */
  lemma {:induction false} LastTaggedSpec(mods: Modalities, tag: string)
    ensures LastTagged(mods, tag).None? <==> forall i :: 0 <= i < |mods| ==> mods[i].1 != tag
    ensures LastTagged(mods, tag).Some? ==>
      exists i :: 0 <= i < |mods| && mods[i] == (LastTagged(mods, tag).value, tag) &&
        forall j :: i < j < |mods| ==> mods[j].1 != tag
  {
    if |mods| > 0 {
      var init := mods[..|mods| - 1];
      LastTaggedSpec(init, tag);
      if mods[|mods| - 1].1 != tag {
        assert forall i :: 0 <= i < |init| ==> init[i] == mods[i];
        if LastTagged(init, tag).Some? {
          var i :| 0 <= i < |init| && init[i] == (LastTagged(init, tag).value, tag) &&
            forall j :: i < j < |init| ==> init[j].1 != tag;
          assert mods[i] == init[i];
        }
      }
    }
  }

  /** A tagged column is reported only if it is the last tagged one: adding
      items that carry another tag never changes the answer, and a later
      tagged item always replaces it. */
  lemma {:induction false} LastTaggedAppend(mods: Modalities, more: Modalities, tag: string)
    ensures (forall j :: 0 <= j < |more| ==> more[j].1 != tag) ==>
      LastTagged(mods + more, tag) == LastTagged(mods, tag)
    ensures |more| > 0 && more[|more| - 1].1 == tag ==>
      LastTagged(mods + more, tag) == Some(more[|more| - 1].0)
    decreases |more|
  {
    if |more| > 0 {
      var init := more[..|more| - 1];
      assert (mods + more)[..|mods + more| - 1] == mods + init;
      LastTaggedAppend(mods, init, tag);
    } else {
      assert mods + more == mods;
    }
  }

  /** The scan of the modality map: one pass, each tagged column overwriting
      the previous choice. Returns the image column and the annotation
      column, either of which may be unset. */
  method ResolveColumns(mods: Modalities) returns (imageColumn: Option<string>, annotationColumn: Option<string>)
    ensures imageColumn == LastTagged(mods, SEMANTIC_SEGMENTATION_IMG)
    ensures annotationColumn == LastTagged(mods, SEMANTIC_SEGMENTATION_GT)
  {
    imageColumn, annotationColumn := None, None;
    var i := 0;
    while i < |mods|
      invariant 0 <= i <= |mods|
      invariant imageColumn == LastTagged(mods[..i], SEMANTIC_SEGMENTATION_IMG)
      invariant annotationColumn == LastTagged(mods[..i], SEMANTIC_SEGMENTATION_GT)
    {
      var (columnName, columnModality) := mods[i];
      assert mods[..i + 1][..i] == mods[..i];
      if columnModality == SEMANTIC_SEGMENTATION_IMG {
        imageColumn := Some(columnName);
      }
      if columnModality == SEMANTIC_SEGMENTATION_GT {
        annotationColumn := Some(columnName);
      }
      i := i + 1;
    }
    assert mods[..i] == mods;
  }
}
