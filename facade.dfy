/**
 The input normalisation of the processor's entry point: a column whose value
 is a single string becomes a one-element list holding that string as a
 path; every other value (a list, raw bytes) is passed on unchanged.
 */
module Facade {
  import opened SegTypes

  function Wrap(v: FeatureValue): FeatureValue
  {
    if v.Text? then Refs([Path(v.text)]) else v
  }

  function NormalizeInputs(images: map<string, FeatureValue>): (n: map<string, FeatureValue>)
    ensures n.Keys == images.Keys
  {
    map k | k in images :: Wrap(images[k])
  }

  /** What normalisation does to each column: a string becomes the list of
      exactly that one reference, anything else is left as it was; no string
      value remains and no column is added or removed. */
  lemma NormalizeEffect(images: map<string, FeatureValue>)
    ensures NormalizeInputs(images).Keys == images.Keys
    ensures forall k :: k in images ==> !NormalizeInputs(images)[k].Text?
    ensures forall k :: k in images && images[k].Text? ==>
      Elements(NormalizeInputs(images)[k]) == [Path(images[k].text)]
    ensures forall k :: k in images && !images[k].Text? ==> NormalizeInputs(images)[k] == images[k]
  {
  }

  /** Normalising twice is normalising once. */
  lemma NormalizeIdempotent(images: map<string, FeatureValue>)
    ensures NormalizeInputs(NormalizeInputs(images)) == NormalizeInputs(images)
  {
    var once := NormalizeInputs(images);
    assert forall k :: k in once ==> !once[k].Text?;
  }
}
