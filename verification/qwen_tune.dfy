/** The Qwen fine-tuning script: its ChatML chat template, the prompt it
    builds per record, and its label masking with `<|endoftext|>` as pad. */
module QwenTune {
  import opened Records
  import opened ChatMessages
  import LabelMasking

  /** Emitted before the first message when that message is not a system one. */
  const DEFAULT_SYSTEM_BLOCK: string := "<|im_start|>system\nYou are a helpful assistant.<|im_end|>\n"

  /** Emitted after the last message when a generation prompt is asked for. */
  const GENERATION_PROMPT: string := "<|im_start|>assistant\n"

  /** The block the template emits for one message. */
  function Turn(m: Message): string
  {
    "<|im_start|>" + m.role + "\n" + m.content + "<|im_end|>\n"
  }

  /** What one pass of the template's `for message in messages` loop emits
      for the message at index i (`loop.first` is i == 0, `loop.last` is the
      final index). */
  function Iteration(messages: seq<Message>, i: nat, addGenerationPrompt: bool): string
    requires i < |messages|
  {
    (if i == 0 && messages[i].role != "system" then DEFAULT_SYSTEM_BLOCK else "")
    + Turn(messages[i])
    + (if i == |messages| - 1 && addGenerationPrompt then GENERATION_PROMPT else "")
  }

  /** The output of the loop from index i on. */
  function RenderFrom(messages: seq<Message>, i: nat, addGenerationPrompt: bool): string
    requires i <= |messages|
    decreases |messages| - i
  {
    if i == |messages| then ""
    else Iteration(messages, i, addGenerationPrompt) + RenderFrom(messages, i + 1, addGenerationPrompt)
  }

  /** The blocks of all messages, one after the other. */
  function Turns(messages: seq<Message>): string
  {
    if messages == [] then "" else Turn(messages[0]) + Turns(messages[1..])
  }

  /** The template's output stated without the loop: an optional default
      system block, every message's block, an optional generation prompt;
      nothing at all for no messages. */
  function ReferenceRender(messages: seq<Message>, addGenerationPrompt: bool): string
  {
    if messages == [] then ""
    else
      (if messages[0].role != "system" then DEFAULT_SYSTEM_BLOCK else "")
      + Turns(messages)
      + (if addGenerationPrompt then GENERATION_PROMPT else "")
  }

  /** From the second iteration on the loop emits only message blocks, and
      the generation prompt after the last one. */
  lemma {:induction false} RenderFromLater(messages: seq<Message>, i: nat, addGenerationPrompt: bool)
    requires 1 <= i <= |messages|
    ensures RenderFrom(messages, i, addGenerationPrompt)
      == Turns(messages[i..]) + (if i < |messages| && addGenerationPrompt then GENERATION_PROMPT else "")
    decreases |messages| - i
  {
    if i < |messages| {
      var gen := if addGenerationPrompt then GENERATION_PROMPT else "";
      var turn := Turn(messages[i]);
      assert Iteration(messages, i, addGenerationPrompt)
        == turn + (if i == |messages| - 1 then gen else "");
      assert Turns(messages[i..]) == turn + Turns(messages[i + 1..]) by {
        assert messages[i..][1..] == messages[i + 1..];
      }
      RenderFromLater(messages, i + 1, addGenerationPrompt);
      if i == |messages| - 1 {
        assert messages[i + 1..] == [];
        assert RenderFrom(messages, i + 1, addGenerationPrompt) == "";
      } else {
        assert RenderFrom(messages, i + 1, addGenerationPrompt) == Turns(messages[i + 1..]) + gen;
      }
    }
  }

  /** Regrouping the first iteration's output with the rest of the loop's. */
  lemma Regroup(opening: string, turn: string, rest: string, gen: string, single: bool)
    requires single ==> rest == ""
    ensures (opening + turn + (if single then gen else "")) + (if single then "" else rest + gen)
      == opening + (turn + rest) + gen
  {
  }

  /** The loop renders exactly what the reference definition says. */
  lemma {:induction false} RenderMatchesReference(messages: seq<Message>, addGenerationPrompt: bool)
    ensures RenderFrom(messages, 0, addGenerationPrompt) == ReferenceRender(messages, addGenerationPrompt)
  {
    if messages != [] {
      var opening := if messages[0].role != "system" then DEFAULT_SYSTEM_BLOCK else "";
      var gen := if addGenerationPrompt then GENERATION_PROMPT else "";
      var turn := Turn(messages[0]);
      var rest := Turns(messages[1..]);
      var single := |messages| == 1;
      assert Iteration(messages, 0, addGenerationPrompt) == opening + turn + (if single then gen else "");
      assert RenderFrom(messages, 1, addGenerationPrompt) == (if single then "" else rest + gen) by {
        RenderFromLater(messages, 1, addGenerationPrompt);
      }
      assert single ==> rest == "" by {
        if single {
          assert messages[1..] == [];
        }
      }
      Regroup(opening, turn, rest, gen, single);
      assert ReferenceRender(messages, addGenerationPrompt) == opening + (turn + rest) + gen;
    }
  }

  /** The chat template: the template's loop run over the whole list, which
      renders what the reference definition says. */
  function Render(messages: seq<Message>, addGenerationPrompt: bool): (text: string)
    ensures text == ReferenceRender(messages, addGenerationPrompt)
  {
    RenderMatchesReference(messages, addGenerationPrompt);
    RenderFrom(messages, 0, addGenerationPrompt)
  }

  /** An empty message list renders as the empty string. */
  lemma RenderEmpty(addGenerationPrompt: bool)
    ensures Render([], addGenerationPrompt) == ""
  {
  }

  /** With a generation prompt asked for, a non-empty list renders ending in
      the assistant header, after the last message's block. */
  lemma RenderEndsWithGenerationPrompt(messages: seq<Message>)
    requires messages != []
    ensures var text := Render(messages, true);
      |text| >= |GENERATION_PROMPT| && text[|text| - |GENERATION_PROMPT|..] == GENERATION_PROMPT
  {
    var head := (if messages[0].role != "system" then DEFAULT_SYSTEM_BLOCK else "") + Turns(messages);
    assert Render(messages, true) == head + GENERATION_PROMPT;
  }

  /** The rendering opens with the default system block when the first
      message is not a system one, and with the first message's own block
      when it is. */
  lemma RenderOpening(messages: seq<Message>, addGenerationPrompt: bool)
    requires messages != []
    ensures var text := Render(messages, addGenerationPrompt);
      var opening := if messages[0].role != "system" then DEFAULT_SYSTEM_BLOCK else Turn(messages[0]);
      |text| >= |opening| && text[..|opening|] == opening
  {
    var gen := if addGenerationPrompt then GENERATION_PROMPT else "";
    var turns := Turns(messages);
    var text := Render(messages, addGenerationPrompt);
    if messages[0].role != "system" {
      assert text == DEFAULT_SYSTEM_BLOCK + (turns + gen);
    } else {
      var turn := Turn(messages[0]);
      assert turns == turn + Turns(messages[1..]);
      assert text == turn + (Turns(messages[1..]) + gen);
    }
  }

  /** `apply_chat_template`: the system/user/assistant list rendered with a
      generation prompt, returned as the only column `text`. */
  function ApplyChatTemplate(example: Record): (r: Result<Record>)
    ensures r.Ok? <==> "system_prompt" in example && "usr_prompt" in example && "code_content" in example
    ensures r.Err? ==> r.error == MissingField(
      if "system_prompt" !in example then "system_prompt"
      else if "usr_prompt" !in example then "usr_prompt"
      else "code_content")
    ensures r.Ok? ==> r.value.Keys == {"text"}
  {
    var messages :- SystemUserAssistant(example);
    Ok(map["text" := Render(messages, true)])
  }

  /** A record's prompt is its system, user and assistant blocks followed by
      the generation prompt: its first message is a system one, so the
      default system block is never emitted. */
  lemma {:induction false} PromptShape(example: Record)
    requires "system_prompt" in example && "usr_prompt" in example && "code_content" in example
    ensures ApplyChatTemplate(example).Ok?
    ensures ApplyChatTemplate(example).value["text"]
      == Turn(Message("system", example["system_prompt"]))
       + Turn(Message("user", example["usr_prompt"]))
       + Turn(Message("assistant", example["code_content"]))
       + GENERATION_PROMPT
  {
    var messages := SystemUserAssistant(example).value;
    var system, user, assistant := Turn(messages[0]), Turn(messages[1]), Turn(messages[2]);
    assert Turns(messages) == system + (user + (assistant + "")) by {
      assert messages[1..][0] == messages[1] && messages[1..][1..][0] == messages[2];
      assert messages[1..][1..][1..] == [];
      assert Turns(messages[1..][1..]) == assistant + "";
      assert Turns(messages[1..]) == user + (assistant + "");
    }
    assert ReferenceRender(messages, true) == "" + Turns(messages) + GENERATION_PROMPT;
  }

  /** `tokenize_data`: labels from the tokenizer's `input_ids`, masked at the
      id of `<|endoftext|>`, the pad token. */
  function TokenizeData(tokens: map<string, seq<int>>, endOfTextId: int): (r: Result<map<string, seq<int>>>)
    ensures r.Ok? <==> "input_ids" in tokens
    ensures r.Ok? ==> r.value.Keys == tokens.Keys + {"labels"}
    ensures r.Ok? ==> r.value["input_ids"] == tokens["input_ids"]
    ensures r.Ok? ==> forall k :: k in tokens && k != "labels" ==> r.value[k] == tokens[k]
    ensures r.Ok? ==> |r.value["labels"]| == |tokens["input_ids"]|
    ensures r.Ok? ==> forall i :: 0 <= i < |tokens["input_ids"]| ==>
      r.value["labels"][i] == if tokens["input_ids"][i] == endOfTextId then LabelMasking.IGNORE_INDEX else tokens["input_ids"][i]
  {
    LabelMasking.AddLabels(tokens, endOfTextId)
  }

  /** Every `<|endoftext|>` in the input is masked, whether it pads the
      sequence or not. */
  lemma EndOfTextAlwaysMasked(tokens: map<string, seq<int>>, endOfTextId: int)
    requires "input_ids" in tokens
    ensures TokenizeData(tokens, endOfTextId).Ok?
    ensures forall i :: 0 <= i < |tokens["input_ids"]| && tokens["input_ids"][i] == endOfTextId ==>
      TokenizeData(tokens, endOfTextId).value["labels"][i] == LabelMasking.IGNORE_INDEX
  {
  }
}
