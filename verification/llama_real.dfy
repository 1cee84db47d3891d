/** The CodeLlama-7b script that trains on system/user/assistant records;
    the tokenizer's pad token is its end-of-sequence token. */
module LlamaReal {
  import opened Records
  import opened ChatMessages
  import LabelMasking

  /** `apply_chat_template`: the system/user/assistant list rendered by the
      tokenizer's own chat template (a parameter here) with a generation
      prompt, returned as the only column `text`. */
  function ApplyChatTemplate(example: Record, render: ChatRenderer): (r: Result<Record>)
    ensures r.Ok? <==> "system_prompt" in example && "usr_prompt" in example && "code_content" in example
    ensures r.Err? ==> r.error == MissingField(
      if "system_prompt" !in example then "system_prompt"
      else if "usr_prompt" !in example then "usr_prompt"
      else "code_content")
    ensures r.Ok? ==> r.value.Keys == {"text"}
    ensures r.Ok? ==> r.value["text"] == render([
      Message("system", example["system_prompt"]),
      Message("user", example["usr_prompt"]),
      Message("assistant", example["code_content"])], true)
  {
    var messages :- SystemUserAssistant(example);
    assert messages == [messages[0], messages[1], messages[2]];
    Ok(map["text" := render(messages, true)])
  }

  /** `tokenize_data`: labels from the tokenizer's `input_ids`, masked at the
      pad id, which is the end-of-sequence id. */
  function TokenizeData(tokens: map<string, seq<int>>, eosId: int): (r: Result<map<string, seq<int>>>)
    ensures r.Ok? <==> "input_ids" in tokens
    ensures r.Ok? ==> r.value.Keys == tokens.Keys + {"labels"}
    ensures r.Ok? ==> r.value["input_ids"] == tokens["input_ids"]
    ensures r.Ok? ==> forall k :: k in tokens && k != "labels" ==> r.value[k] == tokens[k]
    ensures r.Ok? ==> r.value["labels"] == LabelMasking.MaskLabels(tokens["input_ids"], eosId)
  {
    LabelMasking.AddLabels(tokens, eosId)
  }

  /** There are exactly as many ignored labels as end-of-sequence ids in the
      input. */
  lemma MaskedCountEqualsEos(tokens: map<string, seq<int>>, eosId: int)
    requires "input_ids" in tokens && LabelMasking.TokenIds(tokens["input_ids"])
    ensures TokenizeData(tokens, eosId).Ok?
    ensures LabelMasking.Occurrences(TokenizeData(tokens, eosId).value["labels"], LabelMasking.IGNORE_INDEX)
      == LabelMasking.Occurrences(tokens["input_ids"], eosId)
  {
    LabelMasking.MaskCountsPads(tokens["input_ids"], eosId);
  }

  /** The labels that are not ignored are the input's non-end-of-sequence
      ids, in the same order. */
  lemma UnmaskedAreNonEos(tokens: map<string, seq<int>>, eosId: int)
    requires "input_ids" in tokens && LabelMasking.TokenIds(tokens["input_ids"])
    ensures TokenizeData(tokens, eosId).Ok?
    ensures LabelMasking.Without(TokenizeData(tokens, eosId).value["labels"], LabelMasking.IGNORE_INDEX)
      == LabelMasking.Without(tokens["input_ids"], eosId)
  {
    LabelMasking.MaskKeepsNonPad(tokens["input_ids"], eosId);
  }
}
