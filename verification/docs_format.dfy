/**
 * The Markdown builders of the operator documentation generator: one
 * block per parameter, result and child dataset, and the page section of
 * one operator. Each builder appends lines to a list and joins them with
 * newlines; the spec functions below give the list each one builds.
 */
module DocsFormat {
  import opened Wrappers
  import opened Text
  import opened PyValue
  import opened SignatureScanner

  const UNKNOWN: Value := Str("unknown")

  /** A parameter descriptor `format_parameter` can render without raising. */
  predicate IsParameter(p: Value)
  {
    && p.Dict?
    && (Has(p, "description") ==> At(p, "description").Str?)
    && (Has(p, "options") && Truthy(At(p, "options")) ==> Iterable(At(p, "options")))
  }

  predicate AllParameters(params: seq<Value>)
  {
    forall i :: 0 <= i < |params| ==> IsParameter(params[i])
  }

  /** The first line of a parameter block; a missing name or type reads `unknown`. */
  function ParameterHeading(p: Value): string
  {
    "#### `" + Show(Get(p, "name", UNKNOWN)) + "` (*" + Show(Get(p, "type", UNKNOWN)) + "*)"
  }

  /** The one line an optional field contributes, `before` + its value + `after`, when the key is present. */
  function Tagged(p: Value, key: string, before: string, after: string): (r: seq<string>)
    ensures Has(p, key) <==> r != []
    ensures Has(p, key) ==> r == [before + Show(At(p, key)) + after]
  {
    if Has(p, key) then [before + Show(At(p, key)) + after] else []
  }

  function LabelBlock(p: Value): (r: seq<string>)
    ensures Has(p, "label") <==> r != []
  {
    if Has(p, "label") then ["**Label:** " + Show(At(p, "label")), ""] else []
  }

  function DescriptionBlock(p: Value): (r: seq<string>)
    requires IsParameter(p)
    ensures Has(p, "description") <==> r != []
    ensures Has(p, "description") ==> r[0] == At(p, "description").s
  {
    if Has(p, "description") then [At(p, "description").s, ""] else []
  }

  /** The line of one entry of a dictionary option: its key, an arrow, its value. */
  function EntryLine(entry: (string, Value)): string
  {
    "  - `" + entry.0 + "` \U{2192} `" + Show(entry.1) + "`"
  }

  function EntryLines(entries: seq<(string, Value)>): seq<string>
  {
    if entries == [] then []
    else EntryLines(entries[..|entries| - 1]) + [EntryLine(entries[|entries| - 1])]
  }

  /** One line per entry, in the dictionary's order. */
  lemma EntryLinesPointwise(entries: seq<(string, Value)>)
    ensures |EntryLines(entries)| == |entries|
    ensures forall j :: 0 <= j < |entries| ==> EntryLines(entries)[j] == EntryLine(entries[j])
  {
    EntryLinesLength(entries);
    forall j | 0 <= j < |entries|
      ensures EntryLines(entries)[j] == EntryLine(entries[j])
    {
      EntryLineAt(entries, j);
    }
  }

  lemma {:induction false} EntryLinesLength(entries: seq<(string, Value)>)
    ensures |EntryLines(entries)| == |entries|
  {
    if entries != [] {
      EntryLinesLength(entries[..|entries| - 1]);
    }
  }

  lemma {:induction false} EntryLineAt(entries: seq<(string, Value)>, j: nat)
    requires j < |entries|
    ensures j < |EntryLines(entries)| && EntryLines(entries)[j] == EntryLine(entries[j])
  {
    var init := entries[..|entries| - 1];
    EntryLinesLength(init);
    if j < |init| {
      EntryLineAt(init, j);
      assert entries[j] == init[j];
    }
  }

  /** A dictionary option gives one line per entry; any other option one line. */
  function OptionLines(option: Value): (r: seq<string>)
    ensures option.Dict? ==> |r| == |option.entries|
    ensures option.Dict? ==> forall j :: 0 <= j < |r| ==> r[j] == EntryLine(option.entries[j])
    ensures !option.Dict? ==> r == ["  - `" + Show(option) + "`"]
  {
    if option.Dict? then EntryLinesPointwise(option.entries); EntryLines(option.entries) else ["  - `" + Show(option) + "`"]
  }

  function OptionsLines(options: seq<Value>): seq<string>
  {
    if options == [] then []
    else OptionsLines(options[..|options| - 1]) + OptionLines(options[|options| - 1])
  }

  lemma OptionsLinesStep(options: seq<Value>, i: nat)
    requires i < |options|
    ensures OptionsLines(options[..i + 1]) == OptionsLines(options[..i]) + OptionLines(options[i])
  {
    var pre := options[..i + 1];
    assert pre[..|pre| - 1] == options[..i];
    assert pre[|pre| - 1] == options[i];
  }

  /** The options list is rendered only when the key is present and its value is truthy. */
  function OptionsBlock(p: Value): (r: seq<string>)
    requires IsParameter(p)
    ensures r != [] <==> Has(p, "options") && Truthy(At(p, "options"))
    ensures r != [] ==> r[0] == "- **Options:**"
  {
    if Has(p, "options") && Truthy(At(p, "options")) then
      ["- **Options:**"] + OptionsLines(Iteration(At(p, "options")))
    else []
  }

  /**
   * The lines `format_parameter` builds: the heading, then each optional
   * field in the fixed order label, description, default, minimum,
   * maximum, precision, step, options, filter, visible_if, enable_if, then
   * an empty line.
   */
  function ParameterLines(p: Value): seq<string>
    requires IsParameter(p)
  {
    [ParameterHeading(p), ""] + ParameterFields(p) + [""]
  }

  /** The optional fields of a parameter block, in their fixed order. */
  function ParameterFields(p: Value): seq<string>
    requires IsParameter(p)
  {
    LabelBlock(p)
    + DescriptionBlock(p)
    + Tagged(p, "default", "- **Default:** `", "`")
    + Tagged(p, "minimum", "- **Minimum:** `", "`")
    + Tagged(p, "maximum", "- **Maximum:** `", "`")
    + Tagged(p, "precision", "- **Precision:** ", " decimal places")
    + Tagged(p, "step", "- **Step:** `", "`")
    + OptionsBlock(p)
    + Tagged(p, "filter", "- **File filter:** ", "")
    + Tagged(p, "visible_if", "- **Visible if:** `", "`")
    + Tagged(p, "enable_if", "- **Enabled if:** `", "`")
  }

  /** A parameter with none of the optional keys renders as its heading and two empty lines. */
  lemma BareParameter(p: Value)
    requires IsParameter(p)
    requires !Has(p, "label") && !Has(p, "description") && !Has(p, "default")
    requires !Has(p, "minimum") && !Has(p, "maximum") && !Has(p, "precision") && !Has(p, "step")
    requires !Has(p, "options") && !Has(p, "filter") && !Has(p, "visible_if") && !Has(p, "enable_if")
    ensures ParameterLines(p) == [ParameterHeading(p), "", ""]
  {
    var none: seq<string> := [];
    assert LabelBlock(p) == none && DescriptionBlock(p) == none && OptionsBlock(p) == none;
  }

  /** One optional field of `format_parameter`: a line is appended only when the key is present. */
  method AppendTagged(p: Value, key: string, before: string, after: string, lines: seq<string>)
    returns (out: seq<string>)
    ensures out == lines + Tagged(p, key, before, after)
  {
    out := lines;
    if Has(p, key) {
      out := out + [before + Show(At(p, key)) + after];
    }
  }

  /** A parameter block starts with its heading line and ends with an empty line. */
  lemma ParameterTextShape(p: Value)
    requires IsParameter(p)
    ensures StartsWith(Lines(ParameterLines(p)), ParameterHeading(p) + "\n")
    ensures |Lines(ParameterLines(p))| > 0 && Lines(ParameterLines(p))[|Lines(ParameterLines(p))| - 1] == '\n'
  {
    FramedLines(ParameterHeading(p), ParameterFields(p));
  }

  /** Lines opening with a heading and an empty line and closing with an empty line start with the heading and end with a newline. */
  lemma FramedLines(heading: string, fields: seq<string>)
    ensures var text := Lines([heading, ""] + fields + [""]);
            && StartsWith(text, heading + "\n")
            && |text| > 0 && text[|text| - 1] == '\n'
  {
    var lines := [heading, ""] + fields + [""];
    assert lines[0] == heading;
    assert lines == lines[..|lines| - 1] + [""];
    LinesStart(lines);
    LinesEndWithNewline(lines);
  }

  /** `format_parameter(param)` */
  method FormatParameter(param: Value) returns (text: string)
    requires IsParameter(param)
    ensures text == Lines(ParameterLines(param))
    ensures StartsWith(text, ParameterHeading(param) + "\n")
    ensures |text| > 0 && text[|text| - 1] == '\n'
  {
    var lines := ParameterLineList(param);
    text := Lines(lines);
    ParameterTextShape(param);
  }

  /** The list of lines `format_parameter` appends to, field by field. */
  method ParameterLineList(param: Value) returns (lines: seq<string>)
    requires IsParameter(param)
    ensures lines == ParameterLines(param)
  {
    lines := [];
    var paramName := Get(param, "name", UNKNOWN);
    var paramType := Get(param, "type", UNKNOWN);
    lines := lines + ["#### `" + Show(paramName) + "` (*" + Show(paramType) + "*)"];
    lines := lines + [""];
    assert lines == [ParameterHeading(param), ""];
    lines := AppendFields(param, lines);
    lines := lines + [""];
  }

  /** The optional fields of `format_parameter`, appended one after another in their fixed order. */
  method AppendFields(param: Value, lines: seq<string>) returns (out: seq<string>)
    requires IsParameter(param)
    ensures out == lines + ParameterFields(param)
  {
    out := lines;
    if Has(param, "label") {
      out := out + ["**Label:** " + Show(At(param, "label"))];
      out := out + [""];
    }
    ghost var fields := LabelBlock(param);
    assert out == lines + fields;
    var before := out;
    if Has(param, "description") {
      out := out + [At(param, "description").s];
      out := out + [""];
    }
    assert out == before + DescriptionBlock(param);
    AppendAssoc(lines, fields, DescriptionBlock(param));
    fields := fields + DescriptionBlock(param);
    fields := AppendField(param, "default", "- **Default:** `", "`", lines, fields, out);
    out := AppendTagged(param, "default", "- **Default:** `", "`", out);
    fields := AppendField(param, "minimum", "- **Minimum:** `", "`", lines, fields, out);
    out := AppendTagged(param, "minimum", "- **Minimum:** `", "`", out);
    fields := AppendField(param, "maximum", "- **Maximum:** `", "`", lines, fields, out);
    out := AppendTagged(param, "maximum", "- **Maximum:** `", "`", out);
    fields := AppendField(param, "precision", "- **Precision:** ", " decimal places", lines, fields, out);
    out := AppendTagged(param, "precision", "- **Precision:** ", " decimal places", out);
    fields := AppendField(param, "step", "- **Step:** `", "`", lines, fields, out);
    out := AppendTagged(param, "step", "- **Step:** `", "`", out);
    AppendAssoc(lines, fields, OptionsBlock(param));
    fields := fields + OptionsBlock(param);
    out := AppendOptions(param, out);
    fields := AppendField(param, "filter", "- **File filter:** ", "", lines, fields, out);
    out := AppendTagged(param, "filter", "- **File filter:** ", "", out);
    fields := AppendField(param, "visible_if", "- **Visible if:** `", "`", lines, fields, out);
    out := AppendTagged(param, "visible_if", "- **Visible if:** `", "`", out);
    fields := AppendField(param, "enable_if", "- **Enabled if:** `", "`", lines, fields, out);
    out := AppendTagged(param, "enable_if", "- **Enabled if:** `", "`", out);
  }

  /** The ghost bookkeeping for one optional field: the fields so far grow by its line. */
  lemma AppendField(p: Value, key: string, before: string, after: string,
                    lines: seq<string>, fields: seq<string>, out: seq<string>)
    returns (grown: seq<string>)
    requires out == lines + fields
    ensures grown == fields + Tagged(p, key, before, after)
    ensures out + Tagged(p, key, before, after) == lines + grown
  {
    grown := fields + Tagged(p, key, before, after);
    AppendAssoc(lines, fields, Tagged(p, key, before, after));
  }

  /** The options part of `format_parameter`: a loop over the options. */
  method AppendOptions(param: Value, lines: seq<string>) returns (out: seq<string>)
    requires IsParameter(param)
    ensures out == lines + OptionsBlock(param)
  {
    out := lines;
    if Has(param, "options") && Truthy(At(param, "options")) {
      out := out + ["- **Options:**"];
      out := AppendOptionList(Iteration(At(param, "options")), out);
    }
  }

  /** The loop of `format_parameter` over the options. */
  method AppendOptionList(options: seq<Value>, lines: seq<string>) returns (out: seq<string>)
    ensures out == lines + OptionsLines(options)
  {
    out := lines;
    ghost var texts: seq<string> := [];
    for i := 0 to |options|
      invariant out == lines + texts
      invariant texts == OptionsLines(options[..i])
    {
      OptionsLinesStep(options, i);
      AppendAssoc(lines, texts, OptionLines(options[i]));
      out := AppendOption(options[i], out);
      texts := texts + OptionLines(options[i]);
    }
    assert options[..|options|] == options;
  }

  /** The body of the options loop: a dictionary option is walked entry by entry. */
  method AppendOption(option: Value, lines: seq<string>) returns (out: seq<string>)
    ensures out == lines + OptionLines(option)
  {
    if option.Dict? {
      out := AppendEntries(option.entries, lines);
    } else {
      out := lines + ["  - `" + Show(option) + "`"];
    }
  }

  /** The inner loop of `format_parameter` over the entries of a dictionary option. */
  method AppendEntries(entries: seq<(string, Value)>, lines: seq<string>) returns (out: seq<string>)
    ensures out == lines + EntryLines(entries)
  {
    out := lines;
    ghost var texts: seq<string> := [];
    for j := 0 to |entries|
      invariant out == lines + texts
      invariant texts == EntryLines(entries[..j])
    {
      var (optionLabel, optionValue) := entries[j];
      var line := "  - `" + optionLabel + "` \U{2192} `" + Show(optionValue) + "`";
      assert entries[..j + 1][..j] == entries[..j];
      AppendAssoc(lines, texts, [line]);
      out := out + [line];
      texts := texts + [line];
    }
    assert entries[..|entries|] == entries;
  }

  /** The lines `format_result` builds. */
  function ResultLines(result: Value): seq<string>
  {
    ["- **`" + Show(Get(result, "name", UNKNOWN)) + "`** (*" + Show(Get(result, "type", UNKNOWN)) + "*)"]
    + (if Has(result, "label") then ["  - Label: " + Show(At(result, "label"))] else [])
    + [""]
  }

  /** `format_result(result)`: a bullet with name and type (`unknown` when missing), then the label if any. */
  method FormatResult(result: Value) returns (text: string)
    requires result.Dict?
    ensures text == Lines(ResultLines(result))
    ensures StartsWith(text, "- **`" + Show(Get(result, "name", UNKNOWN)) + "`** (*"
                              + Show(Get(result, "type", UNKNOWN)) + "*)\n")
    ensures |text| > 0 && text[|text| - 1] == '\n'
  {
    var lines: seq<string> := [];
    var resultName := Get(result, "name", UNKNOWN);
    var resultType := Get(result, "type", UNKNOWN);
    lines := lines + ["- **`" + Show(resultName) + "`** (*" + Show(resultType) + "*)"];
    if Has(result, "label") {
      lines := lines + ["  - Label: " + Show(At(result, "label"))];
    }
    lines := lines + [""];
    assert lines == ResultLines(result);
    text := Lines(lines);
    LinesStart(lines);
    LinesEndWithNewline(lines);
  }

  /** The label a child block shows: its own label, else its name, else `unknown`. */
  function ChildLabel(child: Value): (r: Value)
    ensures Has(child, "label") ==> r == At(child, "label")
    ensures !Has(child, "label") && Has(child, "name") ==> r == At(child, "name")
    ensures !Has(child, "label") && !Has(child, "name") ==> r == UNKNOWN
  {
    Get(child, "label", Get(child, "name", UNKNOWN))
  }

  /** The start of a child's bullet: its label in bold, then its name. */
  function ChildIdentity(child: Value): string
  {
    "- **" + Show(ChildLabel(child)) + "** (`" + Show(Get(child, "name", UNKNOWN)) + "`"
  }

  /** The lines `format_child` builds. */
  function ChildLines(child: Value): seq<string>
  {
    [ChildIdentity(child) + ", type: `" + Show(Get(child, "type", UNKNOWN)) + "`)"]
    + (if Has(child, "description") then ["  - " + Show(At(child, "description"))] else [])
    + [""]
  }

  lemma ChildHeadingStart(child: Value)
    ensures StartsWith(ChildLines(child)[0] + "\n", ChildIdentity(child))
  {
    var head := ChildIdentity(child);
    var rest := ", type: `" + Show(Get(child, "type", UNKNOWN)) + "`)";
    AppendAssoc(head, ", type: `", Show(Get(child, "type", UNKNOWN)));
    AppendAssoc(head, ", type: `" + Show(Get(child, "type", UNKNOWN)), "`)");
    AppendAssoc(head, rest, "\n");
    PrefixOfAppend(head, rest + "\n");
  }

  /** `format_child(child)` */
  method FormatChild(child: Value) returns (text: string)
    requires child.Dict?
    ensures text == Lines(ChildLines(child))
    ensures StartsWith(text, ChildIdentity(child))
    ensures |text| > 0 && text[|text| - 1] == '\n'
  {
    var lines: seq<string> := [];
    var childName := Get(child, "name", UNKNOWN);
    var childType := Get(child, "type", UNKNOWN);
    var childLabel := Get(child, "label", childName);
    var identity := "- **" + Show(childLabel) + "** (`" + Show(childName) + "`";
    lines := lines + [identity + ", type: `" + Show(childType) + "`)"];
    if Has(child, "description") {
      lines := lines + ["  - " + Show(At(child, "description"))];
    }
    lines := lines + [""];
    assert lines == ChildLines(child);
    text := Lines(lines);
    LinesStart(lines);
    LinesEndWithNewline(lines);
    ChildHeadingStart(child);
    StartsWithTrans(text, lines[0] + "\n", ChildIdentity(child));
  }
}
