/** The CodeLlama-13b script that trains on a case description and its
    `0/nuTilda` file; the tokenizer's pad token is its end-of-sequence token. */
module LlamaTildaOnly {
  import opened Records
  import opened ChatMessages
  import LabelMasking

  /** The two-message list: the description as the user turn, the
      `0/nuTilda` file as the assistant turn, looked up in that order. */
  function Messages(example: Record): (r: Result<seq<Message>>)
    ensures r.Ok? <==> "text" in example && "0/nuTilda" in example
    ensures r.Err? ==> r.error == MissingField(if "text" !in example then "text" else "0/nuTilda")
    ensures r.Ok? ==> |r.value| == 2
    ensures r.Ok? ==> r.value[0].role == "user" && r.value[0].content == example["text"]
    ensures r.Ok? ==> r.value[1].role == "assistant" && r.value[1].content == example["0/nuTilda"]
  {
    var user :- Lookup(example, "text");
    var assistant :- Lookup(example, "0/nuTilda");
    Ok([Message("user", user), Message("assistant", assistant)])
  }

  /** `apply_chat_template`: the list rendered by the tokenizer's own chat
      template (a parameter here) with a generation prompt, returned as the
      only column `text`. */
  function ApplyChatTemplate(example: Record, render: ChatRenderer): (r: Result<Record>)
    ensures r.Ok? <==> "text" in example && "0/nuTilda" in example
    ensures r.Err? ==> r.error == MissingField(if "text" !in example then "text" else "0/nuTilda")
    ensures r.Ok? ==> r.value.Keys == {"text"}
    ensures r.Ok? ==>
      r.value["text"] == render([Message("user", example["text"]), Message("assistant", example["0/nuTilda"])], true)
  {
    var messages :- Messages(example);
    Ok(map["text" := render(messages, true)])
  }

  /** Once the dataset folds the returned column into the row, the row's
      original `text` (the description) is replaced by the rendered prompt
      and every other column is kept. */
  lemma TextColumnReplaced(example: Record, render: ChatRenderer)
    requires "text" in example && "0/nuTilda" in example
    ensures ApplyChatTemplate(example, render).Ok?
    ensures var row := UpdateRow(example, ApplyChatTemplate(example, render).value);
      && row.Keys == example.Keys
      && row["text"] == render([Message("user", example["text"]), Message("assistant", example["0/nuTilda"])], true)
      && forall k :: k in example && k != "text" ==> row[k] == example[k]
  {
  }

  /** `tokenize_data`: labels from the tokenizer's `input_ids`, masked at the
      pad id, which is the end-of-sequence id. */
  function TokenizeData(tokens: map<string, seq<int>>, eosId: int): (r: Result<map<string, seq<int>>>)
    ensures r.Ok? <==> "input_ids" in tokens
    ensures r.Ok? ==> r.value.Keys == tokens.Keys + {"labels"}
    ensures r.Ok? ==> r.value["input_ids"] == tokens["input_ids"]
    ensures r.Ok? ==> forall k :: k in tokens && k != "labels" ==> r.value[k] == tokens[k]
    ensures r.Ok? ==> r.value["labels"] == LabelMasking.MaskLabels(tokens["input_ids"], eosId)
  {
    LabelMasking.AddLabels(tokens, eosId)
  }

  /** Every end-of-sequence id is masked, whether it is padding or a genuine
      end of the sequence; every other id is copied. */
  lemma EosAlwaysMasked(tokens: map<string, seq<int>>, eosId: int)
    requires "input_ids" in tokens
    ensures TokenizeData(tokens, eosId).Ok?
    ensures var ids, labels := tokens["input_ids"], TokenizeData(tokens, eosId).value["labels"];
      |labels| == |ids| &&
      forall i :: 0 <= i < |ids| ==>
        (ids[i] == eosId ==> labels[i] == LabelMasking.IGNORE_INDEX) && (ids[i] != eosId ==> labels[i] == ids[i])
  {
  }

  /** A sequence without an end-of-sequence id keeps every id as its label. */
  lemma NoEosLabelsAreIds(tokens: map<string, seq<int>>, eosId: int)
    requires "input_ids" in tokens && eosId !in tokens["input_ids"]
    ensures TokenizeData(tokens, eosId).Ok?
    ensures TokenizeData(tokens, eosId).value["labels"] == tokens["input_ids"]
  {
    LabelMasking.NoPadNoMask(tokens["input_ids"], eosId);
  }

  /** Masking the labels once more with the same pad id returns them unchanged. */
  lemma RelabelIdempotent(tokens: map<string, seq<int>>, eosId: int)
    requires "input_ids" in tokens
    ensures TokenizeData(tokens, eosId).Ok?
    ensures var labels := TokenizeData(tokens, eosId).value["labels"];
      LabelMasking.MaskLabels(labels, eosId) == labels
  {
    LabelMasking.MaskIdempotent(tokens["input_ids"], eosId);
  }
}
