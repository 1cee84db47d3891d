# Prompt formatting and label masking for CFD fine-tuning data

This project models the small pieces of deterministic logic in a repository
that fine-tunes causal language models (CodeLlama, Qwen) on OpenFOAM case
data: a natural-language case description paired with the case's
configuration files and its `Allrun` script.

- **Record formatting** (`data_config/generate_small.py`, `data_config/test.py`):
  `format_data` writes one training string into a row's `text` column from the
  row's `description`, `foamfiles` and `allrun` columns. The two scripts use
  two different templates. One keeps the first 4747 texts for export; the
  other keeps all of them.
- **Chat prompts** (`finetune_files/*/*.py`): `apply_chat_template` builds an
  ordered list of role/content messages and renders it with a generation
  prompt. The Qwen script sets its own ChatML template, which is modelled
  exactly. The CodeLlama scripts use the tokenizer's built-in template, which
  is a function parameter here.
- **Label masking** (all three fine-tuning scripts): `tokenize_data` adds a
  `labels` column to the tokenizer's output. It copies `input_ids` and puts
  `-100` at every position whose id is the pad id.

Modules:

- `Records`: rows as `map<string, string>`, a `Result` for the missing-key
  error, and the dataset's row-by-row map.
- `LabelMasking`: the shared masking code.
- `ChatMessages`: messages and the system/user/assistant list.
- `InstructionFormat`: the `<s>[INST] ` tag both data-preparation scripts open with.
- One module per script: `QwenTune`, `LlamaTildaOnly`
  (`finetune_m_version2.py`), `LlamaReal` (`finetune_real.py`),
  `GenerateSmall` and `ProcessedFoam` (`data_config/test.py`, which writes
  `processed_foam.json`).

In-place writes to a dictionary are modelled as map updates: `example["text"] = ...`
and `tokens['labels'] = ...`. A Python `KeyError` becomes
`Err(MissingField(name))`. Python evaluates the lookups left to right, so the
error names the first missing field in that order. The tokenizer's pad id is
a parameter, not global state. In the CodeLlama scripts the pad id is the
end-of-sequence id, because `pad_token` is set to `eos_token`.

## Model

| member | source | states |
|---|---|---|
| `Records.MapRows` | data_config/generate_small.py:11 | The dataset map succeeds iff the per-row function succeeds on every row. Its result then has one row per input row, in order. Otherwise it fails with the error of the first failing row. |
| `Records.Lookup` | data_config/generate_small.py:5 | Indexing a row by a column name succeeds exactly when the column exists, giving its value. Otherwise it fails with a missing-key error naming that column. |
| `Records.Column` | data_config/test.py:13 | Selecting a column that every row has gives one value per row, in row order, each being that row's value. |
| `Records.UpdateRow` | finetune_files/llama/finetune_m_version2.py:57 | Folding a returned dictionary into a row: returned columns are added or overwritten, and every other column of the row is kept. |
| `LabelMasking.MaskLabels` | finetune_files/qwen/torch_tune_qwen.py:74-76 | The labels have the length of the ids. Each label is `-100` where the id is the pad id, and the id itself elsewhere. |
| `LabelMasking.MaskedExactlyAtPad` | finetune_files/qwen/torch_tune_qwen.py:74-76 | On non-negative token ids, a label is `-100` if and only if the id is the pad id. |
| `LabelMasking.NoPadNoMask` | finetune_files/llama/finetune_m_version2.py:34-36 | With no pad id in the input, the labels equal the ids. |
| `LabelMasking.MaskIdempotent` | finetune_files/llama/finetune_m_version2.py:34-36 | Masking its own output again with the same pad id changes nothing, for every pad id. |
| `LabelMasking.MaskCountsPads` | finetune_files/llama/finetune_real.py:34-36 | On token ids, the number of `-100` labels equals the number of pad ids. |
| `LabelMasking.MaskKeepsNonPad` | finetune_files/llama/finetune_real.py:34-36 | On token ids, the labels other than `-100` are exactly the non-pad ids, in the same order. |
| `LabelMasking.AddLabels` | finetune_files/qwen/torch_tune_qwen.py:72-77 | Adds or overwrites only `labels`; every other column, `input_ids` included, is unchanged. `labels` is masked position by position. Without `input_ids` it fails with a missing-key error. |
| `ChatMessages.SystemUserAssistant` | finetune_files/qwen/torch_tune_qwen.py:62-66 | Exactly three messages, system, user and assistant, whose contents are `system_prompt`, `usr_prompt` and `code_content`. If any of these is missing, it fails naming the first one missing. |
| `QwenTune.RenderFromLater` | finetune_files/qwen/torch_tune_qwen.py:101-104 | From the second loop iteration on, the template emits only message blocks, plus the generation prompt after the last one. |
| `QwenTune.Render` | finetune_files/qwen/torch_tune_qwen.py:101-104 | The template's loop over the whole list, with `loop.first` and `loop.last` modelled as the first and last index. Its output equals the reference definition: the default system block (only if the first role is not `system`), every message's block in order, then the generation prompt when asked for. An empty list gives the empty string. |
| `QwenTune.RenderMatchesReference` | finetune_files/qwen/torch_tune_qwen.py:101-104 | The template loop equals the reference definition. An empty list renders as nothing. Otherwise the output is the default system block (only if the first role is not `system`), then every message's `<|im_start|>role\ncontent<|im_end|>\n` block in order, then `<|im_start|>assistant\n` if a generation prompt is asked for. |
| `QwenTune.RenderEmpty` | finetune_files/qwen/torch_tune_qwen.py:101-104 | An empty message list renders as the empty string. |
| `QwenTune.RenderEndsWithGenerationPrompt` | finetune_files/qwen/torch_tune_qwen.py:103-104 | With a generation prompt, a non-empty list renders ending in `<|im_start|>assistant\n`. |
| `QwenTune.RenderOpening` | finetune_files/qwen/torch_tune_qwen.py:101-103 | The output opens with the default system block when the first role is not `system`, and otherwise with the first message's own block. |
| `QwenTune.ApplyChatTemplate` | finetune_files/qwen/torch_tune_qwen.py:61-70 | The result's only key is `text`. It fails, naming the first missing field, exactly when `system_prompt`, `usr_prompt` or `code_content` is absent. |
| `QwenTune.PromptShape` | finetune_files/qwen/torch_tune_qwen.py:61-70 | A record's prompt is its system, user and assistant blocks followed by the generation prompt. The default system block never appears. |
| `QwenTune.TokenizeData` | finetune_files/qwen/torch_tune_qwen.py:72-77 | `labels` is added; `input_ids` and every other column keep their values. `labels` has the same length as `input_ids` and is masked at the `<|endoftext|>` id. |
| `QwenTune.EndOfTextAlwaysMasked` | finetune_files/qwen/torch_tune_qwen.py:74-76 | Every `<|endoftext|>` id in the input is masked. |
| `LlamaTildaOnly.Messages` | finetune_files/llama/finetune_m_version2.py:22-26 | Exactly two messages: user with `text`, then assistant with `0/nuTilda`. If either is missing, it fails naming the first one missing. |
| `LlamaTildaOnly.ApplyChatTemplate` | finetune_files/llama/finetune_m_version2.py:22-30 | The result's only key is `text`. Its value is the tokenizer's rendering of the two-message list with a generation prompt. Missing fields fail. |
| `LlamaTildaOnly.TextColumnReplaced` | finetune_files/llama/finetune_m_version2.py:30 | Once folded into the row, the original `text` column is replaced by the prompt, and the row keeps its other columns. |
| `LlamaTildaOnly.TokenizeData` | finetune_files/llama/finetune_m_version2.py:32-37 | `labels` is added and is `input_ids` masked at the end-of-sequence id; `input_ids` and every other column keep their values. |
| `LlamaTildaOnly.EosAlwaysMasked` | finetune_files/llama/finetune_m_version2.py:54 | The pad id is the end-of-sequence id, so every end-of-sequence id is masked, whether padding or a genuine end. Every other id is copied. |
| `LlamaTildaOnly.NoEosLabelsAreIds` | finetune_files/llama/finetune_m_version2.py:34-36 | With no end-of-sequence id in the input, the labels equal `input_ids`. |
| `LlamaTildaOnly.RelabelIdempotent` | finetune_files/llama/finetune_m_version2.py:34-36 | Masking the labels once more with the same pad id returns them unchanged. |
| `LlamaReal.ApplyChatTemplate` | finetune_files/llama/finetune_real.py:21-30 | The result's only key is `text`. Its value is the tokenizer's rendering of system, user and assistant messages from `system_prompt`, `usr_prompt` and `code_content`. Missing fields fail, naming the first one missing. |
| `LlamaReal.TokenizeData` | finetune_files/llama/finetune_real.py:32-37 | `labels` is added and is `input_ids` masked at the end-of-sequence id; `input_ids` and every other column keep their values. |
| `LlamaReal.MaskedCountEqualsEos` | finetune_files/llama/finetune_real.py:34-36 | The number of `-100` labels equals the number of end-of-sequence ids in `input_ids`. |
| `LlamaReal.UnmaskedAreNonEos` | finetune_files/llama/finetune_real.py:34-36 | The labels that are kept are the non-end-of-sequence ids, in order. |
| `GenerateSmall.Text` | data_config/generate_small.py:5-7 | The text is 42 characters longer than the three fields together. It starts with `<s>[INST] ` and the description, and ends with the `allrun` content. |
| `GenerateSmall.FieldsAtFixedOffsets` | data_config/generate_small.py:5-7 | Piece by piece at fixed offsets: `<s>[INST] `, the description, `\n\n[/INST] \nfoamfiles:\n`, `foamfiles`, `\n\nallrun:\n`, then `allrun` to the end. With `Text`'s length this fixes every character. |
| `GenerateSmall.FormatData` | data_config/generate_small.py:4-8 | Only `text` is set or overwritten; every other column is unchanged. Without `description`, `foamfiles` or `allrun`, it fails naming the first one missing. |
| `GenerateSmall.FormatDataIdempotent` | data_config/generate_small.py:4-8 | Formatting an already formatted row returns the same row. |
| `GenerateSmall.Export` | data_config/generate_small.py:10-13 | The export holds the first `int(28484/6)` = 4747 formatted texts in row order, or all of them if there are fewer. It fails exactly when some row cannot be formatted. |
| `ProcessedFoam.Text` | data_config/test.py:5-7 | The text is 22 characters longer than the three fields together. It starts with `<s>[INST] ` and the description, and ends with the `allrun` content. |
| `ProcessedFoam.FieldsAtFixedOffsets` | data_config/test.py:5-7 | Piece by piece at fixed offsets: `<s>[INST] `, the description, `\n\n[/INST] ` (no newline after the tag, no section label), `foamfiles`, `\n\n`, then `allrun` to the end. With `Text`'s length this fixes every character. |
| `ProcessedFoam.FormatData` | data_config/test.py:4-8 | Only `text` is set or overwritten; every other column is unchanged. Without `description`, `foamfiles` or `allrun`, it fails naming the first one missing. |
| `ProcessedFoam.FormatDataIdempotent` | data_config/test.py:4-8 | Formatting an already formatted row returns the same row. |
| `ProcessedFoam.Export` | data_config/test.py:10-13 | The export has exactly one formatted text per training row, in row order. It fails exactly when some row cannot be formatted. |

## Left out

- Tokenization is a library call and is not modelled. This covers the token ids, padding to `max_length` (1028, 1024, 4096), Qwen's truncation and `padding_side`. `input_ids` is an input to the model, taken as non-negative ids where a lemma needs it.
- LlamaTildaOnly.ApplyChatTemplate and LlamaReal.ApplyChatTemplate state the rendered text only through a renderer parameter. The CodeLlama chat template is built into the tokenizer library and is not part of this model.
- Model loading, 4-bit quantization, LoRA adaptation, `SFTConfig` values and the trainers are GPU library code with floating-point settings. This includes `CustomSFTTrainer.create_optimizer_and_scheduler` and its epoch/step `train` loop.
- `remove_columns` is a library call and is not modelled. The column lists differ: `finetune_real.py` keeps `code_content`, and the Qwen script drops it.
- `shuffle` and `train_test_split(0.05)` are random and are not modelled.
- `load_dataset`, `json.dumps`, the file writes and `print` are I/O and are not modelled.
- The export functions take the train split only. `ds.map` also formats any other split, and a failure there would abort the script too.
- Column values are taken to be strings. The `str()` conversion that an f-string applies to other values is not modelled.
- Setting `CUDA_VISIBLE_DEVICES` and the global tokenizer attributes is configuration. The pad id is passed explicitly instead.
