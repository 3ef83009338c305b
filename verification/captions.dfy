/** A caption of the scroll-driven video, and the positional list operations
    the caption editor applies to the caption array. The array is addressed by
    index only: it is never sorted or deduplicated. */
module Captions {
  import opened Wrappers
  import opened Json

  /** One caption: an optional id, its start time on the video axis, the
      layout hints and the rich-text body (kept opaque). */
  datatype Caption = Caption(
    id: Option<string>,
    startTime: real,
    width: Option<string>,
    alignment: Option<string>,
    body: Json)

  /** `captions.concat(c)`: `c` becomes the last caption. */
  function Append(cs: seq<Caption>, c: Caption): (r: seq<Caption>)
    ensures |r| == |cs| + 1
    ensures r[..|cs|] == cs
    ensures r[|cs|] == c
  {
    cs + [c]
  }

  /** `newCaptions[i] = c`: only position `i` changes. */
  function ReplaceAt(cs: seq<Caption>, i: nat, c: Caption): (r: seq<Caption>)
    requires i < |cs|
    ensures |r| == |cs|
    ensures r[i] == c
    ensures forall j :: 0 <= j < |cs| && j != i ==> r[j] == cs[j]
  {
    cs[i := c]
  }

  /** `newCaptions.splice(i, 1)`: position `i` goes, later captions move down
      one place in the same order. */
  function RemoveAt(cs: seq<Caption>, i: nat): (r: seq<Caption>)
    requires i < |cs|
    ensures |r| == |cs| - 1
    ensures forall j :: 0 <= j < i ==> r[j] == cs[j]
    ensures forall j :: i <= j < |r| ==> r[j] == cs[j + 1]
  {
    cs[..i] + cs[i + 1..]
  }

  /** Deleting the caption just appended undoes the append. */
  lemma RemoveUndoesAppend(cs: seq<Caption>, c: Caption)
    ensures RemoveAt(Append(cs, c), |cs|) == cs
  {
  }

  /** Writing an element back where it came from changes nothing, and a
      second edit of the same index overrides the first. */
  lemma ReplaceLaws(cs: seq<Caption>, i: nat, c: Caption, d: Caption)
    requires i < |cs|
    ensures ReplaceAt(cs, i, cs[i]) == cs
    ensures ReplaceAt(ReplaceAt(cs, i, c), i, d) == ReplaceAt(cs, i, d)
    ensures ReplaceAt(ReplaceAt(cs, i, c), i, cs[i]) == cs
  {
  }

  /** Editing a caption and then deleting it is the same as deleting it. */
  lemma RemoveAfterReplace(cs: seq<Caption>, i: nat, c: Caption)
    requires i < |cs|
    ensures RemoveAt(ReplaceAt(cs, i, c), i) == RemoveAt(cs, i)
  {
  }

  /** Deleting loses exactly the deleted caption: the multiset of captions
      shrinks by that one element and nothing else. */
  lemma {:induction false} RemoveIsPermutationMinusOne(cs: seq<Caption>, i: nat)
    requires i < |cs|
    ensures multiset(RemoveAt(cs, i)) + multiset{cs[i]} == multiset(cs)
  {
    assert cs == cs[..i] + [cs[i]] + cs[i + 1..];
  }
}
