/** The data-preparation script that formats every record without section
    labels and exports all of the texts. */
module ProcessedFoam {
  import opened Records
  import opened InstructionFormat

  /** The training text: the description inside the instruction tags, then
      the two file contents separated by a blank line. */
  function Text(description: string, foamfiles: string, allrun: string): (text: string)
    ensures |text| == |description| + |foamfiles| + |allrun| + 22
    ensures text[..|INSTRUCTION_OPEN| + |description|] == INSTRUCTION_OPEN + description
    ensures text[|text| - |allrun|..] == allrun
  {
    var prompt := INSTRUCTION_OPEN + description;
    var response := foamfiles + "\n\n" + allrun;
    prompt + ("\n\n[/INST] " + response)
  }

  /** The text piece by piece at fixed offsets, given the lengths of the
      description and of `foamfiles`: the opening tag, the description, the
      closing delimiter, `foamfiles`, a blank line, then `allrun` to the end.
      With the length in `Text`'s contract this fixes every character. */
  lemma {:induction false} FieldsAtFixedOffsets(description: string, foamfiles: string, allrun: string)
    ensures var text, o, d, f := Text(description, foamfiles, allrun), |INSTRUCTION_OPEN|, |description|, |foamfiles|;
      && text[..o] == INSTRUCTION_OPEN
      && text[o..o + d] == description
      && text[o + d..o + d + 10] == "\n\n[/INST] "
      && text[o + d + 10..o + d + 10 + f] == foamfiles
      && text[o + d + 10 + f..o + d + 12 + f] == "\n\n"
      && text[o + d + 12 + f..] == allrun
  {
    var text := Text(description, foamfiles, allrun);
    var o, d := |INSTRUCTION_OPEN|, |description|;
    var head := INSTRUCTION_OPEN + description + "\n\n[/INST] ";
    var body := head + foamfiles;
    assert |head| == o + d + 10;
    assert text == body + "\n\n" + allrun;
    assert body[..|head|] == head;
    assert head[..o] == INSTRUCTION_OPEN;
    assert head[o..o + d] == description;
    assert head[o + d..] == "\n\n[/INST] ";
  }

  /** `format_data`: sets the row's `text` column from its `description`,
      `foamfiles` and `allrun` columns, read in that order. */
  function FormatData(example: Record): (r: Result<Record>)
    ensures r.Ok? <==> "description" in example && "foamfiles" in example && "allrun" in example
    ensures r.Err? ==> r.error == MissingField(
      if "description" !in example then "description"
      else if "foamfiles" !in example then "foamfiles"
      else "allrun")
    ensures r.Ok? ==> r.value.Keys == example.Keys + {"text"}
    ensures r.Ok? ==> forall k :: k in example && k != "text" ==> r.value[k] == example[k]
    ensures r.Ok? ==> r.value["text"] == Text(example["description"], example["foamfiles"], example["allrun"])
  {
    var description :- Lookup(example, "description");
    var foamfiles :- Lookup(example, "foamfiles");
    var allrun :- Lookup(example, "allrun");
    Ok(example["text" := Text(description, foamfiles, allrun)])
  }

  /** Formatting a formatted row again gives the same row: `text` is never
      read, and the columns that are read are left as they were. */
  lemma FormatDataIdempotent(example: Record)
    requires FormatData(example).Ok?
    ensures FormatData(FormatData(example).value) == FormatData(example)
  {
    var formatted := FormatData(example).value;
    var text := Text(example["description"], example["foamfiles"], example["allrun"]);
    assert formatted["description"] == example["description"];
    assert formatted["foamfiles"] == example["foamfiles"];
    assert formatted["allrun"] == example["allrun"];
    assert formatted["text" := text] == formatted;
  }

  /** The exported texts: one per row of the train split, in row order; the
      first row that fails to format aborts the export. */
  function Export(train: seq<Record>): (r: Result<seq<string>>)
    ensures r.Ok? <==> forall i :: 0 <= i < |train| ==> FormatData(train[i]).Ok?
    ensures r.Err? ==> exists k :: FirstFailure(FormatData, train, k) && r.error == FormatData(train[k]).error
    ensures r.Ok? ==> |r.value| == |train|
    ensures r.Ok? ==> forall i :: 0 <= i < |train| ==>
      r.value[i] == Text(train[i]["description"], train[i]["foamfiles"], train[i]["allrun"])
  {
    var formatted :- MapRows(FormatData, train);
    Ok(Column(formatted, "text"))
  }
}
