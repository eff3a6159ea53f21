/**
 Values shared by the semantic-segmentation image processor model: image
 references as they appear in a sample, the processed items the pipelines
 produce, the entries of an output record, collation strategies, the
 training augmentations and the ways a call can fail.
 */
module SegTypes {

  datatype Option<+T> = None | Some(value: T)

  datatype Result<+T, +E> = Success(value: T) | Failure(error: E)

  /** One image reference: a file path, a byte blob, or a single byte (what
      iterating over a raw `bytes` column value yields). Which of them decode
      is decided by the decoding oracle of a call. */
  datatype Ref = Path(path: string) | Data(bytes: seq<bv8>) | Octet(octet: bv8)

  /** The value of one column of a sample, before or after the facade's
      normalisation: a single string, a list of references, or raw bytes. */
  datatype FeatureValue = Text(text: string) | Refs(refs: seq<Ref>) | Blob(bytes: seq<bv8>)

  /** What iterating over, or indexing into, a column value yields: the
      list's references, the characters of a string (each one a path), or
      the bytes of a blob. */
  function Elements(v: FeatureValue): (es: seq<Ref>)
    ensures |es| == match v
      case Text(s) => |s|
      case Refs(rs) => |rs|
      case Blob(b) => |b|
  {
    match v
    case Text(s) => seq(|s|, i requires 0 <= i < |s| => Path([s[i]]))
    case Refs(rs) => rs
    case Blob(b) => seq(|b|, i requires 0 <= i < |b| => Octet(b[i]))
  }

  /** The training augmentation currently recognised: a horizontal flip
      applied with probability 1. */
  datatype Aug = HorizontalFlip(probability: real)

  /** Which pipeline produced a processed item: the image pipeline (with
      normalisation) or the ground-truth pipeline (without). */
  datatype Role = ImageRole | MaskRole

  /** A processed tensor, opaque apart from where it came from: its role, the
      position of its reference in the column, that reference, and the
      composed augmentation applied before the role's pipeline ([] when none
      was applied). */
  datatype Tensor = Tensor(role: Role, source: nat, origin: Ref, augmentation: seq<Aug>)

  /** One value of a sample output record: a stacked tensor (the sequence of
      items concatenated along the first dimension; empty for the empty
      tensor) or the valid-image count. */
  datatype Entry = Stacked(items: seq<Tensor>) | Count(count: nat)

  /** Collation strategies, as tags: zero padding or plain stacking. */
  datatype Collator = Pad(padValue: int) | Stack

  /** The outcome of asking for the collation plan: the plan, or the
      NotImplementedError object that is returned (not raised). */
  datatype CollateResult = Plan(collators: map<string, Collator>) | NotImplemented(message: string)

  /** The exceptions a call can raise. */
  datatype ProcError =
    | ImageColumnUnbound              // no column is tagged as segmentation image
    | MissingKey(key: Option<string>) // a column lookup that is not in the sample
    | MaskIndexOutOfRange(index: nat) // the ground-truth list is shorter than the image list
    | MaskDecodeFailed(index: nat)    // the mask at this index does not decode
    | MaskUnbound(index: nat)         // a mask is needed but was never read
    | TrainTransformsNone             // iterating over a missing augmentation list

  /** Errors raised inside the per-image loop, which name the image index. */
  predicate AtIndex(e: ProcError)
  {
    e.MaskIndexOutOfRange? || e.MaskDecodeFailed? || e.MaskUnbound?
  }
}
