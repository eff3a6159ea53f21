/**
 The training augmentation policy: the configured operation names are
 filtered down to the recognised ones, in order, and composed. The only
 recognised name is "random_horizontal_flip", which yields a flip applied
 with probability 1; every other name is dropped without an error.
 */
module Augment {
  import opened SegTypes

  const RANDOM_HORIZONTAL_FLIP: string := "random_horizontal_flip"

  /** The transform a recognised name stands for. */
  const Flip: Aug := HorizontalFlip(1.0)

  /** The composed augmentation list built from `names`. */
  function Recognized(names: seq<string>): seq<Aug>
  {
    if |names| == 0 then []
    else Recognized(names[..|names| - 1]) + (if names[|names| - 1] == RANDOM_HORIZONTAL_FLIP then [Flip] else [])
  }

  /** Filtering distributes over concatenation: the result keeps the input
      order, each part contributing its own transforms in place. */
  lemma {:induction false} RecognizedConcat(a: seq<string>, b: seq<string>)
    ensures Recognized(a + b) == Recognized(a) + Recognized(b)
    decreases |b|
  {
    if |b| == 0 {
      assert a + b == a;
    } else {
      var init := b[..|b| - 1];
      assert (a + b)[..|a + b| - 1] == a + init;
      RecognizedConcat(a, init);
    }
  }

  /** One flip per occurrence of the recognised name, and nothing else. */
  lemma {:induction false} RecognizedCount(names: seq<string>)
    ensures |Recognized(names)| == multiset(names)[RANDOM_HORIZONTAL_FLIP]
    ensures forall k :: 0 <= k < |Recognized(names)| ==> Recognized(names)[k] == Flip
  {
    if |names| > 0 {
      var init := names[..|names| - 1];
      RecognizedCount(init);
      assert names == init + [names[|names| - 1]];
      assert multiset(names) == multiset(init) + multiset{names[|names| - 1]};
    }
  }

  /** A list of unrecognised names composes to the identity (no transform). */
  lemma {:induction false} UnrecognizedDropped(names: seq<string>)
    requires forall i :: 0 <= i < |names| ==> names[i] != RANDOM_HORIZONTAL_FLIP
    ensures Recognized(names) == []
  {
    RecognizedCount(names);
    assert RANDOM_HORIZONTAL_FLIP !in multiset(names);
  }
}
