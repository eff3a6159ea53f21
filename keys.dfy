/**
 Output key names. Every key a processor writes is its model's prefix, an
 underscore, and a role name, so that processors of different models never
 write to the same key.
 */
module Keys {

  const IMAGE: string := "image"
  const LABEL: string := "label"
  const IMAGE_VALID_NUM: string := "image_valid_num"
  const COLUMN: string := "column"

  function ImageKey(prefix: string): string
  {
    prefix + "_" + IMAGE
  }

  function LabelKey(prefix: string): string
  {
    prefix + "_" + LABEL
  }

  function ValidNumKey(prefix: string): string
  {
    prefix + "_" + IMAGE_VALID_NUM
  }

  function ImageColumnPrefix(prefix: string): string
  {
    ImageKey(prefix) + "_" + COLUMN
  }

  /** The three keys of one sample record. */
  function RecordKeys(prefix: string): set<string>
  {
    {ImageKey(prefix), ValidNumKey(prefix), LabelKey(prefix)}
  }

  /** Every key written under a prefix, the column prefix included. */
  function AllKeys(prefix: string): set<string>
  {
    RecordKeys(prefix) + {ImageColumnPrefix(prefix)}
  }

  lemma LastOfConcat(a: string, b: string)
    requires |b| > 0
    ensures (a + b)[|a + b| - 1] == b[|b| - 1]
  {
  }

  /** The prefix a key was built from, given the key's role name. */
  function PrefixOf(key: string, tail: string): string
    requires |key| > |tail|
  {
    key[..|key| - |tail| - 1]
  }

  lemma PrefixOfKey(prefix: string, tail: string)
    ensures PrefixOf(prefix + "_" + tail, tail) == prefix
  {
    assert (prefix + "_" + tail)[..|prefix|] == prefix;
  }

  /** Each key is a string that starts with the prefix and an underscore. */
  lemma KeysStartWithPrefix(prefix: string)
    ensures forall k :: k in AllKeys(prefix) ==>
      |k| > |prefix| + 1 && k[..|prefix|] == prefix && k[|prefix|] == '_'
  {
    forall k | k in AllKeys(prefix)
      ensures |k| > |prefix| + 1 && k[..|prefix|] == prefix && k[|prefix|] == '_'
    {
      var tail :| tail in {IMAGE, LABEL, IMAGE_VALID_NUM, IMAGE + "_" + COLUMN} && k == prefix + "_" + tail;
      assert k == prefix + ("_" + tail);
    }
  }

  /** The keys of one prefix are pairwise distinct (they end in different
      letters): three record keys and, with the column prefix, which extends
      the image key, four names. */
  lemma {:induction false} KeysDistinct(prefix: string)
    ensures |RecordKeys(prefix)| == 3
    ensures |AllKeys(prefix)| == 4
    ensures ImageColumnPrefix(prefix)[..|ImageKey(prefix)|] == ImageKey(prefix)
  {
    LastOfConcat(prefix + "_", IMAGE);
    LastOfConcat(prefix + "_", LABEL);
    LastOfConcat(prefix + "_", IMAGE_VALID_NUM);
    LastOfConcat(ImageKey(prefix) + "_", COLUMN);
    assert ImageKey(prefix) != LabelKey(prefix);
    assert ImageKey(prefix) != ValidNumKey(prefix);
    assert LabelKey(prefix) != ValidNumKey(prefix);
    assert ImageColumnPrefix(prefix) !in RecordKeys(prefix);
  }

  lemma KeysAsTails(prefix: string, tails: seq<string>)
    requires tails == [IMAGE, LABEL, IMAGE_VALID_NUM, IMAGE + "_" + COLUMN]
    ensures forall k :: k in AllKeys(prefix) ==> exists i :: 0 <= i < 4 && k == prefix + "_" + tails[i]
  {
    assert ImageKey(prefix) == prefix + "_" + tails[0];
    assert LabelKey(prefix) == prefix + "_" + tails[1];
    assert ValidNumKey(prefix) == prefix + "_" + tails[2];
    assert ImageColumnPrefix(prefix) == prefix + "_" + tails[3];
  }

  /** Keys are namespaced: two different prefixes share no key, whatever the
      roles; equivalently a key determines its prefix and its role. */
  lemma {:induction false} KeysNamespaced(p: string, q: string)
    requires p != q
    ensures AllKeys(p) !! AllKeys(q)
  {
    var tails := [IMAGE, LABEL, IMAGE_VALID_NUM, IMAGE + "_" + COLUMN];
    KeysAsTails(p, tails);
    KeysAsTails(q, tails);
    forall i, j | 0 <= i < 4 && 0 <= j < 4
      ensures p + "_" + tails[i] != q + "_" + tails[j]
    {
      LastOfConcat(p + "_", tails[i]);
      LastOfConcat(q + "_", tails[j]);
      if i == j {
        PrefixOfKey(p, tails[i]);
        PrefixOfKey(q, tails[i]);
      }
    }
    forall k | k in AllKeys(p) ensures k !in AllKeys(q) {
      var i :| 0 <= i < 4 && k == p + "_" + tails[i];
      forall j | 0 <= j < 4 ensures k != q + "_" + tails[j] { }
    }
  }
}
