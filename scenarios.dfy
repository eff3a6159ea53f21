/**
 Two concrete samples: an image column and a mask column of three
 references each, an image cap of 2, evaluation mode.
 */
module Scenarios {
  import opened SegTypes
  import opened Keys
  import opened Columns
  import opened Assembly

  const A: Ref := Path("a.jpg")
  const B: Ref := Path("b.jpg")
  const C: Ref := Path("c.jpg")
  const AMask: Ref := Path("a_mask.png")
  const BMask: Ref := Path("b_mask.png")
  const CMask: Ref := Path("c_mask.png")

  function ThreeImages(opensImage: Ref -> bool): Inputs
  {
    Inputs(map["img" := Refs([A, B, C]), "gt" := Refs([AMask, BMask, CMask])],
           [("img", SEMANTIC_SEGMENTATION_IMG), ("gt", SEMANTIC_SEGMENTATION_GT)],
           false, opensImage, _ => true, _ => false)
  }

  /** With every reference decodable, the first two images and their masks
      are kept and the third pair is ignored. */
  lemma CapTwoKeepsFirstTwo(prefix: string)
    ensures Sample(prefix, 2, [], ThreeImages(_ => true)) ==
      Success(map[ImageKey(prefix) := Stacked([Tensor(ImageRole, 0, A, []), Tensor(ImageRole, 1, B, [])]),
                  ValidNumKey(prefix) := Count(2),
                  LabelKey(prefix) := Stacked([Tensor(MaskRole, 0, AMask, []), Tensor(MaskRole, 1, BMask, [])])])
  {
    var inp := ThreeImages(_ => true);
    assert ImageColumn(inp) == Some("img");
    assert AnnotationColumn(inp) == Some("gt");
    var c := ContextOf(inp, []);
    var sel := Selected(inp, 2);
    assert sel == [A, B];
    assert c.gtRefs == [AMask, BMask, CMask] && Truthy(c.annotation) && !c.isTraining;
    assert ReadMask(c, 0) == Success(Some(AMask));
    assert Collect(c, sel, 0) == Success(Stacks([], []));
    assert c.opensImage(sel[0]);
    assert c.annotation.Some? && sel[0] == A;
    var e: seq<Tensor> := [];
    assert e + [Tensor(ImageRole, 0, A, [])] == [Tensor(ImageRole, 0, A, [])];
    assert e + [Tensor(MaskRole, 0, AMask, [])] == [Tensor(MaskRole, 0, AMask, [])];
    assert Step(c, sel, 0, Stacks([], [])) == Success(Stacks([Tensor(ImageRole, 0, A, [])], [Tensor(MaskRole, 0, AMask, [])]));
    assert Collect(c, sel, 1) == Success(Stacks([Tensor(ImageRole, 0, A, [])], [Tensor(MaskRole, 0, AMask, [])]));
    assert ReadMask(c, 1) == Success(Some(BMask));
    assert c.opensImage(sel[1]) && sel[1] == B;
    assert [Tensor(ImageRole, 0, A, [])] + [Tensor(ImageRole, 1, B, [])] ==
      [Tensor(ImageRole, 0, A, []), Tensor(ImageRole, 1, B, [])];
    assert [Tensor(MaskRole, 0, AMask, [])] + [Tensor(MaskRole, 1, BMask, [])] ==
      [Tensor(MaskRole, 0, AMask, []), Tensor(MaskRole, 1, BMask, [])];
    assert Collect(c, sel, 2) == Success(Stacks([Tensor(ImageRole, 0, A, []), Tensor(ImageRole, 1, B, [])],
                                                [Tensor(MaskRole, 0, AMask, []), Tensor(MaskRole, 1, BMask, [])]));
  }

  /** When the second image is corrupt, only the first pair is kept. */
  lemma CorruptImageSkipped(prefix: string)
    ensures Sample(prefix, 2, [], ThreeImages(r => r != B)) ==
      Success(map[ImageKey(prefix) := Stacked([Tensor(ImageRole, 0, A, [])]),
                  ValidNumKey(prefix) := Count(1),
                  LabelKey(prefix) := Stacked([Tensor(MaskRole, 0, AMask, [])])])
  {
    var inp := ThreeImages(r => r != B);
    assert ImageColumn(inp) == Some("img");
    assert AnnotationColumn(inp) == Some("gt");
    var c := ContextOf(inp, []);
    var sel := Selected(inp, 2);
    assert sel == [A, B];
    assert c.gtRefs == [AMask, BMask, CMask] && Truthy(c.annotation) && !c.isTraining;
    assert ReadMask(c, 0) == Success(Some(AMask));
    assert Collect(c, sel, 0) == Success(Stacks([], []));
    assert c.opensImage(sel[0]);
    assert c.annotation.Some? && sel[0] == A;
    var e: seq<Tensor> := [];
    assert e + [Tensor(ImageRole, 0, A, [])] == [Tensor(ImageRole, 0, A, [])];
    assert e + [Tensor(MaskRole, 0, AMask, [])] == [Tensor(MaskRole, 0, AMask, [])];
    assert Step(c, sel, 0, Stacks([], [])) == Success(Stacks([Tensor(ImageRole, 0, A, [])], [Tensor(MaskRole, 0, AMask, [])]));
    assert Collect(c, sel, 1) == Success(Stacks([Tensor(ImageRole, 0, A, [])], [Tensor(MaskRole, 0, AMask, [])]));
  }
}
