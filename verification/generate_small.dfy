/** The data-preparation script that formats every record with labelled
    `foamfiles:` and `allrun:` sections and exports the first 4747 texts. */
module GenerateSmall {
  import opened Records
  import opened InstructionFormat

  /** `int(28484/6)`: both operands are positive, so the floor taken by `/`
      here is the truncation of the true quotient 4747.33..., that is 4747. */
  const EXPORT_COUNT: nat := 28484 / 6

  /** The training text: the description inside the instruction tags, then
      the two labelled sections. */
  function Text(description: string, foamfiles: string, allrun: string): (text: string)
    ensures |text| == |description| + |foamfiles| + |allrun| + 42
    ensures text[..|INSTRUCTION_OPEN| + |description|] == INSTRUCTION_OPEN + description
    ensures text[|text| - |allrun|..] == allrun
  {
    var prompt := INSTRUCTION_OPEN + description;
    var response := "foamfiles:\n" + foamfiles + "\n\nallrun:\n" + allrun;
    prompt + ("\n\n[/INST] \n" + response)
  }

  /** The text piece by piece at fixed offsets, given the lengths of the
      description and of `foamfiles`: the opening tag, the description, the
      closing delimiter, `foamfiles`, the `"

allrun:
"` label, then `allrun` to the end.
      With the length in `Text`'s contract this fixes every character. */
  lemma {:induction false} FieldsAtFixedOffsets(description: string, foamfiles: string, allrun: string)
    ensures var text, o, d, f := Text(description, foamfiles, allrun), |INSTRUCTION_OPEN|, |description|, |foamfiles|;
      && text[..o] == INSTRUCTION_OPEN
      && text[o..o + d] == description
      && text[o + d..o + d + 22] == "\n\n[/INST] \nfoamfiles:\n"
      && text[o + d + 22..o + d + 22 + f] == foamfiles
      && text[o + d + 22 + f..o + d + 32 + f] == "\n\nallrun:\n"
      && text[o + d + 32 + f..] == allrun
  {
    var text := Text(description, foamfiles, allrun);
    var o, d := |INSTRUCTION_OPEN|, |description|;
    var head := INSTRUCTION_OPEN + description + "\n\n[/INST] \nfoamfiles:\n";
    var body := head + foamfiles;
    assert |head| == o + d + 22;
    assert text == body + "\n\nallrun:\n" + allrun;
    assert body[..|head|] == head;
    assert head[..o] == INSTRUCTION_OPEN;
    assert head[o..o + d] == description;
    assert head[o + d..] == "\n\n[/INST] \nfoamfiles:\n";
  }

  /** `format_data`: sets the row's `text` column from its `description`,
      `foamfiles` and `allrun` columns, read in that order. */
  function FormatData(example: Record): (r: Result<Record>)
    ensures r.Ok? <==> "description" in example && "foamfiles" in example && "allrun" in example
    ensures r.Err? ==> r.error == MissingField(
      if "description" !in example then "description"
      else if "foamfiles" !in example then "foamfiles"
      else "allrun")
    ensures r.Ok? ==> r.value.Keys == example.Keys + {"text"}
    ensures r.Ok? ==> forall k :: k in example && k != "text" ==> r.value[k] == example[k]
    ensures r.Ok? ==> r.value["text"] == Text(example["description"], example["foamfiles"], example["allrun"])
  {
    var description :- Lookup(example, "description");
    var foamfiles :- Lookup(example, "foamfiles");
    var allrun :- Lookup(example, "allrun");
    Ok(example["text" := Text(description, foamfiles, allrun)])
  }

  /** Formatting a formatted row again gives the same row: `text` is never
      read, and the columns that are read are left as they were. */
  lemma FormatDataIdempotent(example: Record)
    requires FormatData(example).Ok?
    ensures FormatData(FormatData(example).value) == FormatData(example)
  {
    var formatted := FormatData(example).value;
    var text := Text(example["description"], example["foamfiles"], example["allrun"]);
    assert formatted["description"] == example["description"];
    assert formatted["foamfiles"] == example["foamfiles"];
    assert formatted["allrun"] == example["allrun"];
    assert formatted["text" := text] == formatted;
  }

  /** The exported texts: every row of the train split is formatted (the
      first failing row aborts), then the first EXPORT_COUNT texts are kept,
      or all of them when there are fewer. */
  function Export(train: seq<Record>): (r: Result<seq<string>>)
    ensures r.Ok? <==> forall i :: 0 <= i < |train| ==> FormatData(train[i]).Ok?
    ensures r.Err? ==> exists k :: FirstFailure(FormatData, train, k) && r.error == FormatData(train[k]).error
    ensures r.Ok? ==> |r.value| == if |train| < EXPORT_COUNT then |train| else EXPORT_COUNT
    ensures r.Ok? ==> forall i :: 0 <= i < |r.value| ==>
      r.value[i] == Text(train[i]["description"], train[i]["foamfiles"], train[i]["allrun"])
  {
    var formatted :- MapRows(FormatData, train);
    var texts := Column(formatted, "text");
    Ok(texts[..if |texts| < EXPORT_COUNT then |texts| else EXPORT_COUNT])
  }
}
