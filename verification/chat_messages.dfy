/** Chat messages as the fine-tuning scripts build them for a tokenizer's
    chat template. */
module ChatMessages {
  import opened Records

  /** One `{"role": ..., "content": ...}` entry of a message list. */
  datatype Message = Message(role: string, content: string)

  /** A tokenizer's chat-template rendering: a message list and the
      `add_generation_prompt` flag to a prompt string. */
  type ChatRenderer = (seq<Message>, bool) -> string

  /** The system/user/assistant list built from `system_prompt`,
      `usr_prompt` and `code_content`, looked up in that order. */
  function SystemUserAssistant(example: Record): (r: Result<seq<Message>>)
    ensures r.Ok? <==> "system_prompt" in example && "usr_prompt" in example && "code_content" in example
    ensures r.Err? ==> r.error == MissingField(
      if "system_prompt" !in example then "system_prompt"
      else if "usr_prompt" !in example then "usr_prompt"
      else "code_content")
    ensures r.Ok? ==> |r.value| == 3
    ensures r.Ok? ==> r.value[0].role == "system" && r.value[0].content == example["system_prompt"]
    ensures r.Ok? ==> r.value[1].role == "user" && r.value[1].content == example["usr_prompt"]
    ensures r.Ok? ==> r.value[2].role == "assistant" && r.value[2].content == example["code_content"]
  {
    var system :- Lookup(example, "system_prompt");
    var user :- Lookup(example, "usr_prompt");
    var assistant :- Lookup(example, "code_content");
    Ok([Message("system", system), Message("user", user), Message("assistant", assistant)])
  }
}
