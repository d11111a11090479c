/**
 * `generate_operator_markdown`: the page section of one operator, built
 * from its title, description, compatibility note, transform signature,
 * parameter, result and child blocks and implementation file names.
 */
module OperatorMarkdown {
  import opened Wrappers
  import opened Text
  import opened PyValue
  import opened SignatureScanner
  import opened DocsFormat

  /** `'key' in op and op['key']` */
  predicate Listed(op: Value, key: string)
  {
    Has(op, key) && Truthy(At(op, key))
  }

  /** The descriptors listed under `key`. */
  function Items(op: Value, key: string): seq<Value>
    requires Has(op, key)
  {
    Iteration(At(op, key))
  }

  /** The script file name, `op.get('_filename', '')`. */
  function FileName(op: Value): Value
  {
    Get(op, "_filename", Str(""))
  }

  /** An operator descriptor `generate_operator_markdown` can render without raising. */
  predicate IsRenderable(op: Value)
  {
    && op.Dict?
    && (Has(op, "description") ==> At(op, "description").Str?)
    && (Has(op, "_python_code") ==> At(op, "_python_code").Str?)
    && (Truthy(FileName(op)) ==> FileName(op).Str?)
    && (Listed(op, "parameters") ==>
          Iterable(At(op, "parameters")) &&
          AllParameters(Items(op, "parameters")))
    && (Listed(op, "results") ==>
          Iterable(At(op, "results")) &&
          forall i :: 0 <= i < |Items(op, "results")| ==> Items(op, "results")[i].Dict?)
    && (Listed(op, "children") ==>
          Iterable(At(op, "children")) &&
          forall i :: 0 <= i < |Items(op, "children")| ==> Items(op, "children")[i].Dict?)
  }

  /** The heading text: the label, else the name, else "Unknown Operator". */
  function Title(op: Value): (r: string)
    ensures Has(op, "label") ==> r == Show(At(op, "label"))
    ensures !Has(op, "label") && Has(op, "name") ==> r == Show(At(op, "name"))
    ensures !Has(op, "label") && !Has(op, "name") ==> r == "Unknown Operator"
  {
    Show(Get(op, "label", Get(op, "name", Str("Unknown Operator"))))
  }

  function Description(op: Value): (r: string)
    requires IsRenderable(op)
    ensures !Has(op, "description") ==> r == "No description available."
  {
    Get(op, "description", Str("No description available.")).s
  }

  /** The compatibility note, present exactly when `externalCompatible` is present and falsy. */
  function NoteBlock(op: Value): (r: seq<string>)
    ensures r != [] <==> Has(op, "externalCompatible") && !Truthy(At(op, "externalCompatible"))
  {
    if Has(op, "externalCompatible") && !Truthy(At(op, "externalCompatible")) then
      ["```{note}", "This operator is not compatible with external Python execution.", "```", ""]
    else []
  }

  /** The signature section, present exactly when the script holds a transform header. */
  function SignatureBlock(op: Value): (r: seq<string>)
    requires IsRenderable(op)
    ensures r != [] <==> Has(op, "_python_code") && ExtractFunctionSignature(At(op, "_python_code").s).Some?
  {
    if Has(op, "_python_code") then
      match ExtractFunctionSignature(At(op, "_python_code").s)
      case Some(signature) => ["### Function Signature", "", "```python", signature, "```", ""]
      case None => []
    else []
  }

  function ParameterTexts(params: seq<Value>): seq<string>
    requires AllParameters(params)
  {
    if params == [] then []
    else ParameterTexts(params[..|params| - 1]) + [Lines(ParameterLines(params[|params| - 1]))]
  }

  function ResultTexts(results: seq<Value>): seq<string>
  {
    if results == [] then []
    else ResultTexts(results[..|results| - 1]) + [Lines(ResultLines(results[|results| - 1]))]
  }

  function ChildTexts(children: seq<Value>): seq<string>
  {
    if children == [] then []
    else ChildTexts(children[..|children| - 1]) + [Lines(ChildLines(children[|children| - 1]))]
  }

  /** The Parameters section, present exactly when the parameter list is non-empty. */
  function ParametersBlock(op: Value): (r: seq<string>)
    requires IsRenderable(op)
    ensures r != [] <==> Listed(op, "parameters")
  {
    if Listed(op, "parameters") then
      ["### Parameters", ""] + ParameterTexts(Items(op, "parameters"))
    else []
  }

  /** The Results section, present exactly when the result list is non-empty. */
  function ResultsBlock(op: Value): (r: seq<string>)
    ensures r != [] <==> Listed(op, "results")
  {
    if Listed(op, "results") then
      ["### Results", "", "This operator produces the following results:", ""]
      + ResultTexts(Items(op, "results"))
    else []
  }

  /** The Child Datasets section, present exactly when the child list is non-empty. */
  function ChildrenBlock(op: Value): (r: seq<string>)
    ensures r != [] <==> Listed(op, "children")
  {
    if Listed(op, "children") then
      ["### Child Datasets", "", "This operator creates the following child datasets:", ""]
      + ChildTexts(Items(op, "children"))
    else []
  }

  /** The script file named after the descriptor file, `.json` replaced by `.py`. */
  function ScriptName(fileName: string): string
  {
    ReplaceAll(fileName, ".json", ".py")
  }

  /** The Implementation section, present exactly when the descriptor file name is non-empty. */
  function ImplementationBlock(op: Value): (r: seq<string>)
    requires IsRenderable(op)
    ensures r != [] <==> Truthy(FileName(op))
  {
    if Truthy(FileName(op)) then
      ["### Implementation", "",
       "**Python script:** `" + ScriptName(FileName(op).s) + "`", "",
       "**JSON descriptor:** `" + FileName(op).s + "`", ""]
    else []
  }

  /** The lines `generate_operator_markdown` builds. */
  function MarkdownLines(op: Value): seq<string>
    requires IsRenderable(op)
  {
    MarkdownHead(op)
    + SignatureBlock(op)
    + ParametersBlock(op)
    + ResultsBlock(op)
    + ChildrenBlock(op)
    + ImplementationBlock(op)
    + ["---", ""]
  }

  /** The title, the description and the note on external execution. */
  function MarkdownHead(op: Value): (r: seq<string>)
    requires IsRenderable(op)
    ensures |r| >= 4 && r[0] == "## " + Title(op)
  {
    ["## " + Title(op), ""] + [Description(op), ""] + NoteBlock(op)
  }

  /** The page section opens with the title heading and closes with a `---` rule and an empty line. */
  lemma MarkdownTextShape(op: Value)
    requires IsRenderable(op)
    ensures StartsWith(Lines(MarkdownLines(op)), "## " + Title(op) + "\n")
    ensures EndsWith(Lines(MarkdownLines(op)), "\n---\n")
  {
    SectionsFramed(MarkdownHead(op), SignatureBlock(op), ParametersBlock(op), ResultsBlock(op),
                   ChildrenBlock(op), ImplementationBlock(op), "---");
  }

  /** Whatever the sections hold, the page opens with the first head line and closes with `last`. */
  lemma SectionsFramed(head: seq<string>, a: seq<string>, b: seq<string>, c: seq<string>,
                       d: seq<string>, e: seq<string>, last: string)
    requires |head| >= 1
    ensures StartsWith(Lines(head + a + b + c + d + e + [last, ""]), head[0] + "\n")
    ensures EndsWith(Lines(head + a + b + c + d + e + [last, ""]), "\n" + last + "\n")
  {
    var lines := head + a + b + c + d + e + [last, ""];
    assert lines[0] == head[0];
    LinesStart(lines);
    LinesEndWithLine(lines, last);
  }

  /** A descriptor file `<stem>.json` names the script `<stem>.py`. */
  lemma ScriptNameOfJson(stem: string)
    requires forall i :: 0 <= i < |stem| ==> !OccursAt(stem + ".json", ".json", i)
    ensures ScriptName(stem + ".json") == stem + ".py"
  {
    assert stem + ".json" + "" == stem + ".json";
    ReplaceAllFirst(stem, ".json", "", ".py");
  }

  /** `generate_operator_markdown(operator)` */
  method GenerateOperatorMarkdown(op: Value) returns (text: string)
    requires IsRenderable(op)
    ensures text == Lines(MarkdownLines(op))
    ensures StartsWith(text, "## " + Title(op) + "\n")
    ensures EndsWith(text, "\n---\n")
  {
    var lines := MarkdownLineList(op);
    text := Lines(lines);
    MarkdownTextShape(op);
  }

  /** The list of lines `generate_operator_markdown` appends to, section by section. */
  method MarkdownLineList(op: Value) returns (lines: seq<string>)
    requires IsRenderable(op)
    ensures lines == MarkdownLines(op)
  {
    lines := HeaderLines(op);
    lines := AppendSignature(op, lines);
    lines := AppendParameters(op, lines);
    lines := AppendResults(op, lines);
    lines := AppendChildren(op, lines);
    lines := AppendImplementation(op, lines);
    lines := lines + ["---", ""];
  }

  /** The title, the description and the note on external execution. */
  method HeaderLines(op: Value) returns (lines: seq<string>)
    requires IsRenderable(op)
    ensures lines == MarkdownHead(op)
  {
    var name := Get(op, "name", Str("Unknown Operator"));
    var title := Get(op, "label", name);
    lines := ["## " + Show(title), ""];
    var description := Get(op, "description", Str("No description available."));
    lines := lines + [description.s, ""];
    if Has(op, "externalCompatible") && !Truthy(At(op, "externalCompatible")) {
      lines := lines + ["```{note}", "This operator is not compatible with external Python execution.",
                        "```", ""];
    }
  }

  method AppendSignature(op: Value, lines: seq<string>) returns (out: seq<string>)
    requires IsRenderable(op)
    ensures out == lines + SignatureBlock(op)
  {
    out := lines;
    if Has(op, "_python_code") {
      var signature := ExtractFunctionSignature(At(op, "_python_code").s);
      if signature.Some? {
        out := out + ["### Function Signature", "", "```python", signature.value, "```", ""];
      }
    }
  }

  lemma ParameterTextsStep(params: seq<Value>, i: nat)
    requires i < |params| && AllParameters(params)
    ensures ParameterTexts(params[..i + 1]) == ParameterTexts(params[..i]) + [Lines(ParameterLines(params[i]))]
  {
    var pre := params[..i + 1];
    assert pre[..|pre| - 1] == params[..i];
    assert pre[|pre| - 1] == params[i];
  }

  lemma ResultTextsStep(results: seq<Value>, i: nat)
    requires i < |results|
    ensures ResultTexts(results[..i + 1]) == ResultTexts(results[..i]) + [Lines(ResultLines(results[i]))]
  {
    var pre := results[..i + 1];
    assert pre[..|pre| - 1] == results[..i];
    assert pre[|pre| - 1] == results[i];
  }

  lemma ChildTextsStep(children: seq<Value>, i: nat)
    requires i < |children|
    ensures ChildTexts(children[..i + 1]) == ChildTexts(children[..i]) + [Lines(ChildLines(children[i]))]
  {
    var pre := children[..i + 1];
    assert pre[..|pre| - 1] == children[..i];
    assert pre[|pre| - 1] == children[i];
  }

  /** The parameters loop: one `format_parameter` block per parameter. */
  method AppendParameters(op: Value, lines: seq<string>) returns (out: seq<string>)
    requires IsRenderable(op)
    ensures out == lines + ParametersBlock(op)
  {
    out := lines;
    if Listed(op, "parameters") {
      var heading := ["### Parameters", ""];
      var params := Items(op, "parameters");
      out := AppendParameterTexts(params, out + heading);
      AppendAssoc(lines, heading, ParameterTexts(params));
    }
  }

  method AppendParameterTexts(params: seq<Value>, lines: seq<string>) returns (out: seq<string>)
    requires AllParameters(params)
    ensures out == lines + ParameterTexts(params)
  {
    out := lines;
    ghost var texts: seq<string> := [];
    for i := 0 to |params|
      invariant out == lines + texts
      invariant texts == ParameterTexts(params[..i])
    {
      var block := FormatParameter(params[i]);
      ParameterTextsStep(params, i);
      AppendAssoc(lines, texts, [block]);
      out := out + [block];
      texts := texts + [block];
    }
    assert params[..|params|] == params;
  }

  /** The results loop: one `format_result` block per result. */
  method AppendResults(op: Value, lines: seq<string>) returns (out: seq<string>)
    requires IsRenderable(op)
    ensures out == lines + ResultsBlock(op)
  {
    out := lines;
    if Listed(op, "results") {
      var heading := ["### Results", "", "This operator produces the following results:", ""];
      var results := Items(op, "results");
      out := AppendResultTexts(results, out + heading);
      AppendAssoc(lines, heading, ResultTexts(results));
    }
  }

  method AppendResultTexts(results: seq<Value>, lines: seq<string>) returns (out: seq<string>)
    requires forall i :: 0 <= i < |results| ==> results[i].Dict?
    ensures out == lines + ResultTexts(results)
  {
    out := lines;
    ghost var texts: seq<string> := [];
    for i := 0 to |results|
      invariant out == lines + texts
      invariant texts == ResultTexts(results[..i])
    {
      var block := FormatResult(results[i]);
      ResultTextsStep(results, i);
      AppendAssoc(lines, texts, [block]);
      out := out + [block];
      texts := texts + [block];
    }
    assert results[..|results|] == results;
  }

  /** The children loop: one `format_child` block per child dataset. */
  method AppendChildren(op: Value, lines: seq<string>) returns (out: seq<string>)
    requires IsRenderable(op)
    ensures out == lines + ChildrenBlock(op)
  {
    out := lines;
    if Listed(op, "children") {
      var heading := ["### Child Datasets", "", "This operator creates the following child datasets:", ""];
      var children := Items(op, "children");
      out := AppendChildTexts(children, out + heading);
      AppendAssoc(lines, heading, ChildTexts(children));
    }
  }

  method AppendChildTexts(children: seq<Value>, lines: seq<string>) returns (out: seq<string>)
    requires forall i :: 0 <= i < |children| ==> children[i].Dict?
    ensures out == lines + ChildTexts(children)
  {
    out := lines;
    ghost var texts: seq<string> := [];
    for i := 0 to |children|
      invariant out == lines + texts
      invariant texts == ChildTexts(children[..i])
    {
      var block := FormatChild(children[i]);
      ChildTextsStep(children, i);
      AppendAssoc(lines, texts, [block]);
      out := out + [block];
      texts := texts + [block];
    }
    assert children[..|children|] == children;
  }

  method AppendImplementation(op: Value, lines: seq<string>) returns (out: seq<string>)
    requires IsRenderable(op)
    ensures out == lines + ImplementationBlock(op)
  {
    out := lines;
    var fileName := Get(op, "_filename", Str(""));
    if Truthy(fileName) {
      var scriptName := ReplaceAll(fileName.s, ".json", ".py");
      out := out + ["### Implementation", "",
                    "**Python script:** `" + scriptName + "`", "",
                    "**JSON descriptor:** `" + fileName.s + "`", ""];
    }
  }
}
