/** The label sequence built beside a tokenized example: every padding
    position is excluded from the loss, every other position copies its id.
    All three fine-tuning scripts share this code. */
module LabelMasking {
  import opened Records

  /** The label the loss ignores. */
  const IGNORE_INDEX: int := -100

  /** Token ids as a tokenizer produces them: never negative. */
  ghost predicate TokenIds(ids: seq<int>)
  {
    forall i :: 0 <= i < |ids| ==> ids[i] >= 0
  }

  /** `[-100 if token == pad else token for token in ids]`. */
  function MaskLabels(ids: seq<int>, pad: int): (labels: seq<int>)
    ensures |labels| == |ids|
    ensures forall i :: 0 <= i < |ids| ==>
      labels[i] == if ids[i] == pad then IGNORE_INDEX else ids[i]
  {
    if ids == [] then []
    else [if ids[0] == pad then IGNORE_INDEX else ids[0]] + MaskLabels(ids[1..], pad)
  }

  /** How many times x occurs in s. */
  function Occurrences(s: seq<int>, x: int): nat
  {
    if s == [] then 0 else (if s[0] == x then 1 else 0) + Occurrences(s[1..], x)
  }

  /** s with every occurrence of x dropped, the rest in order. */
  function Without(s: seq<int>, x: int): seq<int>
  {
    if s == [] then [] else (if s[0] == x then [] else [s[0]]) + Without(s[1..], x)
  }

  /** On token ids a label is ignored exactly where the id is the pad id. */
  lemma MaskedExactlyAtPad(ids: seq<int>, pad: int)
    requires TokenIds(ids)
    ensures forall i :: 0 <= i < |ids| ==>
      (MaskLabels(ids, pad)[i] == IGNORE_INDEX <==> ids[i] == pad)
  {
  }

  /** Without a pad id in the input, the labels are the ids themselves. */
  lemma NoPadNoMask(ids: seq<int>, pad: int)
    requires pad !in ids
    ensures MaskLabels(ids, pad) == ids
  {
  }

  /** Masking its own output again changes nothing, whatever the pad id. */
  lemma {:induction false} MaskIdempotent(ids: seq<int>, pad: int)
    ensures MaskLabels(MaskLabels(ids, pad), pad) == MaskLabels(ids, pad)
  {
    var labels := MaskLabels(ids, pad);
    var again := MaskLabels(labels, pad);
    forall i | 0 <= i < |ids|
      ensures again[i] == labels[i]
    {
      if ids[i] == pad {
        assert labels[i] == IGNORE_INDEX;
      }
    }
  }

  /** The number of ignored labels is the number of pad ids in the input. */
  lemma {:induction false} MaskCountsPads(ids: seq<int>, pad: int)
    requires TokenIds(ids)
    ensures Occurrences(MaskLabels(ids, pad), IGNORE_INDEX) == Occurrences(ids, pad)
  {
    if ids != [] {
      MaskCountsPads(ids[1..], pad);
      assert MaskLabels(ids, pad)[1..] == MaskLabels(ids[1..], pad);
    }
  }

  /** The labels that are kept are exactly the non-pad ids, in their order. */
  lemma {:induction false} MaskKeepsNonPad(ids: seq<int>, pad: int)
    requires TokenIds(ids)
    ensures Without(MaskLabels(ids, pad), IGNORE_INDEX) == Without(ids, pad)
  {
    if ids != [] {
      MaskKeepsNonPad(ids[1..], pad);
      assert MaskLabels(ids, pad)[1..] == MaskLabels(ids[1..], pad);
    }
  }

  /** `tokens['labels'] = MaskLabels(tokens['input_ids'], pad)` on the
      tokenizer's output dictionary; the lookup raises if there is no
      `input_ids` column. */
  function AddLabels(tokens: map<string, seq<int>>, pad: int): (r: Result<map<string, seq<int>>>)
    ensures r.Ok? <==> "input_ids" in tokens
    ensures r.Err? ==> r.error == MissingField("input_ids")
    ensures r.Ok? ==> r.value.Keys == tokens.Keys + {"labels"}
    ensures r.Ok? ==> forall k :: k in tokens && k != "labels" ==> r.value[k] == tokens[k]
    ensures r.Ok? ==> |r.value["labels"]| == |tokens["input_ids"]|
    ensures r.Ok? ==> forall i :: 0 <= i < |tokens["input_ids"]| ==>
      r.value["labels"][i] == if tokens["input_ids"][i] == pad then IGNORE_INDEX else tokens["input_ids"][i]
  {
    var ids :- Lookup(tokens, "input_ids");
    Ok(tokens["labels" := MaskLabels(ids, pad)])
  }
}
