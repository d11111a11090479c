# tomviz Python operators and their documentation generator, in Dafny

This project models two parts of tomviz.

**The Python operator** (`tomviz/OperatorPython.cxx`) is the C++ object behind every operator that tomviz runs as a Python script. It holds:
- a label and a script;
- a JSON descriptor;
- the result names and the child data source declared by that descriptor;
- the Python handles that compiling the script produces.

Its model is the class `Operators.OperatorPython`. It has the fields the source updates and methods with `modifies` frames:
- `setLabel`, `setJSONDescription`, `setScript`, `applyTransform`, `serialize`, `deserialize` and `clone`.

The specification functions these methods are proved against are in two modules:
- `OperatorDescriptor`: what a parsed descriptor declares;
- `ResultDemux`: the signals emitted for a returned dictionary.

The module `Encoding` models how the operator's text leaves Qt as C strings. A `QString` holds UTF-16 code units, and `toLatin1()` gives one byte per code unit, with '?' for a unit Latin-1 cannot hold. So a character above U+FFFF, stored as a surrogate pair, becomes "??". The C string ends at the first NUL. The descriptor reaches the JSON reader the same way, as its Latin-1 bytes up to the first NUL. Coming back, the bytes are decoded as UTF-8, which is how Qt 5 builds a `QString` from a C string and how Python's `PyDict_GetItemString` reads a key.

Outside the model are the Python interpreter, the JSON reader and `tomviz.utils`. An `Environment` value stands in for them and says what each step comes to: compiling a script, executing it as a module, finding its transform, asking whether it can be cancelled, and parsing a descriptor. `applyTransform` is told what the Python call returned, and whether a Python error is pending afterwards. The Qt signals the operator emits are appended to a `signals` log.

**The documentation generator** (`tomviz/python/generate-operator-docs.py`) turns operator descriptors into Sphinx Markdown pages. Descriptors are Python dictionaries, modelled as `PyValue.Value`. The model covers:
- `format_parameter`, `format_result` and `format_child`: module `DocsFormat`;
- `extract_function_signature`: module `SignatureScanner`;
- `generate_operator_markdown`: module `OperatorMarkdown`;
- `categorize_operators`: module `DocsCategories`;
- the page assembly of `generate_all_docs` and the rewrite in `update_main_index`: module `DocsIndex`.

Each of these builds a list of lines by successive appends, with loops over options, parameters, results, children, categories and operators. Each is modelled as a method with those loops. Each method is proved equal to a function that states the lines. Lemmas then state what those lines contain.

Supporting modules:
- `Text`: joining lines, substrings, `replace`, ASCII `lower`, whitespace and Python's string order;
- `PyValue`: dictionary access, truthiness and `str()`/`repr()`;
- `StableSort`: Python's stable sort by key;
- `JsonTree`: the jsoncpp value tree;
- `Wrappers`: `Option`.

## Model

| member | source | states |
|---|---|---|
| Operators.OperatorPython.constructor | tomviz/OperatorPython.cxx:104-166 | The label starts as "Python Operator". The script, descriptor and declarations start empty. The utils module handle is set exactly when importing `tomviz.utils` succeeded. No compiled handle is set. |
| Operators.OperatorPython.SetLabel | tomviz/OperatorPython.cxx:174-178 | The label becomes the given text, and exactly one labelModified signal is emitted. |
| Operators.DescriptorSeesLatin1 | tomviz/OperatorPython.cxx:195 | Two descriptors that differ in one character parse alike when both characters have the same Latin-1 encoding, such as "α" and "?". |
| Operators.OperatorPython.SetJSONDescription | tomviz/OperatorPython.cxx:185-257 | The descriptor string is always stored. The reader is given its Latin-1 bytes up to the first NUL. An unchanged string, or one that fails to parse, changes nothing else. After a successful parse: the label is replaced only by a non-null `label` node, with one signal; the slots, names, child declarations and child flag become what the descriptor declares. |
| Operators.OperatorPython.ReadDeclarations | tomviz/OperatorPython.cxx:208-256 | The result names and child pairs are cleared, then rebuilt from `results` and `children`. The slots are untouched when `results` is null. The child flag is only ever raised, never lowered. |
| Operators.ReadResults | tomviz/OperatorPython.cxx:212-233 | The index loop resizes the slots to the array length. It gives slot i the non-null name and label of entry i. It collects the non-null names in array order. |
| Operators.ReadChildren | tomviz/OperatorPython.cxx:235-256 | A non-empty array announces a child data source. Only entry 0 is read. Its (name, label) pair is kept only when both are non-null. |
| OperatorDescriptor.DeclaredNamesSound | tomviz/OperatorPython.cxx:220-226 | Every declared result name is the `name` of some entry whose name is non-null. |
| OperatorDescriptor.DeclaredNamesComplete | tomviz/OperatorPython.cxx:220-226 | Every entry with a non-null `name` has that name declared. |
| OperatorDescriptor.DeclaredNamesAllNamed | tomviz/OperatorPython.cxx:212-231 | When every entry is named, the names are the entries' names one for one, in array order. |
| OperatorDescriptor.DeclaredNamesAppend | tomviz/OperatorPython.cxx:218-231 | The names of a concatenation are the names of the first part followed by those of the second, so array order is kept. |
| OperatorDescriptor.DeclaredNamesBound | tomviz/OperatorPython.cxx:212-231 | There are never more names than entries. |
| OperatorDescriptor.Resized | tomviz/OperatorPython.cxx:214-215 | Resizing to n slots keeps the first n old slots and pads with blank ones. |
| OperatorDescriptor.ConfiguredSlots | tomviz/OperatorPython.cxx:212-231 | There is one slot per entry, and each named entry's slot carries its name. |
| OperatorDescriptor.DeclaredChild | tomviz/OperatorPython.cxx:235-256 | At most one pair is recorded. It is recorded exactly when entry 0 exists with a non-null name and a non-null label, and it is that entry's (name, label). |
| OperatorDescriptor.DeclaredChildIgnoresRest | tomviz/OperatorPython.cxx:240-247 | Entries after the first never affect the recorded child. |
| Operators.OperatorPython.SetScript | tomviz/OperatorPython.cxx:264-348 | An equal script changes nothing. A different one is stored, and the handles are exactly those the compile chain reaches before its first failure. Only a complete chain sets the cancel flag and emits transformModified. |
| Operators.FailedBindIsIdentity | tomviz/OperatorPython.cxx:318-323 | When the transform method cannot be found, the new script is stored without a transform method. The next applyTransform then succeeds, reports no error and emits nothing. |
| Operators.OperatorPython.ApplyTransform | tomviz/OperatorPython.cxx:350-458 | Without a script, utils module or transform method, it succeeds and changes nothing. An exception fails it. A returned dictionary is demultiplexed into result and child signals, each name looked up under its `toLatin1()` key as in Demultiplex. The final pending-error check decides success. |
| ResultDemux.Demultiplex | tomviz/OperatorPython.cxx:388-443 | The two loops emit the result signals, then the child signals, in declaration order. Each name is looked up under its key: its Latin-1 bytes (one per UTF-16 code unit, '?' for a unit above 0xFF) up to the first NUL, decoded as UTF-8. The error flag is set exactly when some declared result or child name is not found. |
| ResultDemux.ResultSignalsSound | tomviz/OperatorPython.cxx:392-416 | Every result signal names a declared result whose value is the data object it carries. |
| ResultDemux.ResultSignalsComplete | tomviz/OperatorPython.cxx:392-416 | Every declared result holding a data object is signalled. |
| ResultDemux.ResultSignalsAllValid | tomviz/OperatorPython.cxx:392-416 | When every declared result holds a data object, there is exactly one signal per name, in order. |
| ResultDemux.ResultSignalsBound | tomviz/OperatorPython.cxx:392-416 | There are never more result signals than declared names. |
| ResultDemux.ChildSignalsSound | tomviz/OperatorPython.cxx:419-443 | Every child signal carries the label of a declared child whose name holds that data object. |
| ResultDemux.ChildSignalsComplete | tomviz/OperatorPython.cxx:419-443 | Every declared child whose name holds a data object is signalled under its label. |
| ResultDemux.NonDataResultIsSkipped | tomviz/OperatorPython.cxx:406-415 | A declared result that is found but is not a data object emits no signal and does not set the error flag. The signals and the flag are as if it had not been declared. |
| ResultDemux.AsciiNameIsKey | tomviz/OperatorPython.cxx:393-398 | An ASCII name without NUL is looked up under itself, so it is found exactly when the dictionary has that key. |
| ResultDemux.SurrogatePairNameKey | tomviz/OperatorPython.cxx:393-398 | A result declared as "😀" is looked up as "??": with the dictionary holding "??" it is found and signalled under its declared name. |
| ResultDemux.NonLatin1NameMissed | tomviz/OperatorPython.cxx:393-398 | A result declared as "α" is looked up as "?", so it is reported missing even though the dictionary holds it. |
| Operators.OperatorPython.Serialize | tomviz/OperatorPython.cxx:469-474 | Exactly two attributes are appended after the existing ones. Reading back `label` and `script` from a node that had neither gives the Latin-1 bytes of the label and of the script, one per UTF-16 code unit with '?' for a unit above 0xFF, up to the first NUL. |
| Operators.AttributeValueAppend | tomviz/OperatorPython.cxx:476-481 | Reading an attribute returns the first one with that name, so attributes appended later only matter when it was absent. |
| Operators.OperatorPython.Deserialize | tomviz/OperatorPython.cxx:476-481 | The label, then the script, become the attribute bytes decoded as Qt decodes a C string. A changed script is recompiled. The signals are one labelModified, then a transformModified only when a changed script compiles fully with a transform method. The cancel flag changes only in that case. It always succeeds. |
| Operators.SerializeRoundTrip | tomviz/OperatorPython.cxx:469-481 | Loading the element one operator serialised gives another operator its label and script after Latin-1 encoding, truncation at NUL and UTF-8 decoding. ASCII text without NUL comes back unchanged. |
| Encoding.AsciiTextSurvives | tomviz/OperatorPython.cxx:469-481 | ASCII text without NUL is its own Latin-1 bytes and C string, and decodes back to itself. |
| Encoding.NonLatin1Replaced | tomviz/OperatorPython.cxx:471-479 | A character outside Latin-1 is saved as "?" and comes back as "?". |
| Encoding.LoneLatin1ByteRejected | tomviz/OperatorPython.cxx:471-479 | A Latin-1 byte above 0x7F, such as "é" saved alone, is not valid UTF-8. |
| Encoding.CStringPrefix | tomviz/OperatorPython.cxx:471-479 | A C string is the prefix before the first NUL, or the whole text when it has no NUL. |
| Encoding.Latin1Shape | tomviz/OperatorPython.cxx:471-472 | `toLatin1` gives one byte per UTF-16 code unit and only bytes. It leaves the text unchanged exactly when every character is a Latin-1 character. |
| Encoding.Latin1Append | tomviz/OperatorPython.cxx:471-472 | `toLatin1` converts character by character, so it distributes over concatenation. |
| Encoding.SurrogatePairReplaced | tomviz/OperatorPython.cxx:471-479 | A character above U+FFFF, such as "😀", is saved as "??" and comes back as "??". |
| Operators.OperatorPython.Clone | tomviz/OperatorPython.cxx:460-467 | The clone has the same environment, script and descriptor. With no script it has no handles; otherwise its handles, cancel flag and transformModified signal are those of compiling the script. Its signals start with labelModified and end with a second one when the descriptor parses with a non-null label. The descriptor is parsed from its Latin-1 bytes up to the first NUL. With a parsed descriptor, the label, slots, result names, child pair and child flag are exactly what the descriptor declares over the source's label. Otherwise it keeps the source's label and declares nothing. |
| DocsFormat.LabelBlock | tomviz/python/generate-operator-docs.py:100-102 | The label and an empty line appear exactly when `label` is present. |
| DocsFormat.DescriptionBlock | tomviz/python/generate-operator-docs.py:105-107 | The description and an empty line appear exactly when `description` is present. |
| DocsFormat.OptionsBlock | tomviz/python/generate-operator-docs.py:128-135 | The options block is non-empty exactly when `options` is present and truthy, and then it opens with "- **Options:**". |
| DocsFormat.OptionLines | tomviz/python/generate-operator-docs.py:130-135 | A dict option gives one key-arrow-value line per entry, in entry order. Any other option gives exactly one line. |
| DocsFormat.EntryLinesPointwise | tomviz/python/generate-operator-docs.py:132-133 | There is one line per dictionary entry, and line j is entry j's. |
| DocsFormat.OptionsLinesStep | tomviz/python/generate-operator-docs.py:130-135 | Each further option appends its own lines after those of the earlier options. |
| DocsFormat.AppendOptionList | tomviz/python/generate-operator-docs.py:130-135 | The options loop appends exactly the lines of the options, in order. |
| DocsFormat.AppendEntries | tomviz/python/generate-operator-docs.py:132-133 | The inner loop appends one line per entry of a dict option, in order. |
| DocsFormat.ParameterLineList | tomviz/python/generate-operator-docs.py:89-149 | The appends give the heading, an empty line, then the optional fields in the fixed order (label through enable_if), then an empty line. |
| DocsFormat.ParameterTextShape | tomviz/python/generate-operator-docs.py:89-150 | A parameter block starts with the heading line, with `unknown` for a missing name or type, and ends with a newline. |
| DocsFormat.BareParameter | tomviz/python/generate-operator-docs.py:100-147 | A parameter with none of the optional keys renders as its heading and two empty lines. |
| DocsFormat.FormatParameter | tomviz/python/generate-operator-docs.py:89-150 | The text is the parameter's lines joined by newlines. It starts with the heading line and ends with a newline. |
| DocsFormat.FormatResult | tomviz/python/generate-operator-docs.py:153-165 | The text starts with the bullet naming the result and its type, with `unknown` defaults. The label line appears when present. The text ends with a newline. |
| DocsFormat.ChildLabel | tomviz/python/generate-operator-docs.py:172-174 | A child's label falls back to its name, then to `unknown`. |
| DocsFormat.ChildHeadingStart | tomviz/python/generate-operator-docs.py:172-176 | A child's first line starts with its label and then its name in backquotes. |
| DocsFormat.FormatChild | tomviz/python/generate-operator-docs.py:168-182 | The text starts with the label and name, with the defaults above. The description line appears when present. The text ends with a newline. |
| SignatureScanner.SkipSpaces | tomviz/python/generate-operator-docs.py:190 | `\s*` skips exactly the maximal run of whitespace. |
| SignatureScanner.FindClose | tomviz/python/generate-operator-docs.py:190-191 | The lazy `(.*?)\):`, with DOTALL, finds the first "):" at or after the start, or reports that none exists. |
| SignatureScanner.MatchAt | tomviz/python/generate-operator-docs.py:190 | A header matched at a position names `transform` or `transform_scalars`. |
| SignatureScanner.Search | tomviz/python/generate-operator-docs.py:191 | `re.search` finds the leftmost position where the pattern matches, or none at all. |
| SignatureScanner.ExtractFunctionSignature | tomviz/python/generate-operator-docs.py:185-200 | The result is None exactly when no position matches. Otherwise it starts with "transform(" or "transform_scalars(" and ends with ")". |
| SignatureScanner.ExtractIsLeftmost | tomviz/python/generate-operator-docs.py:191-198 | The signature comes from the leftmost matching header. |
| SignatureScanner.RenderedNamesTransform | tomviz/python/generate-operator-docs.py:198 | The rendered signature is the function name followed by "(". |
| SignatureScanner.Collapse | tomviz/python/generate-operator-docs.py:197 | `re.sub(r'\s+', ' ', ...)` leaves no whitespace other than single spaces. |
| SignatureScanner.DropSpaces | tomviz/python/generate-operator-docs.py:197 | Leading whitespace is removed, and only whitespace. |
| SignatureScanner.DropTrailingSpaces | tomviz/python/generate-operator-docs.py:197 | Trailing whitespace is removed, and only whitespace. |
| SignatureScanner.CleanShape | tomviz/python/generate-operator-docs.py:196-197 | The cleaned parameters: no whitespace at either end, no whitespace but single spaces, no two spaces in a row, and the same non-whitespace characters in the same order. |
| SignatureScanner.CollapseRun | tomviz/python/generate-operator-docs.py:197 | A run of whitespace between two non-whitespace characters becomes exactly one space, and the text on either side is collapsed independently. |
| SignatureScanner.CleanJoin | tomviz/python/generate-operator-docs.py:196-197 | Two stretches that begin and end with non-whitespace, joined by whitespace, clean to their own cleaned forms joined by a single space. |
| SignatureScanner.SqueezedCollapse | tomviz/python/generate-operator-docs.py:197 | Collapsing whitespace keeps the non-whitespace characters. |
| OperatorMarkdown.Title | tomviz/python/generate-operator-docs.py:208-210 | The title is the label, else the name, else "Unknown Operator". |
| OperatorMarkdown.Description | tomviz/python/generate-operator-docs.py:214-216 | A missing description reads "No description available.". |
| OperatorMarkdown.NoteBlock | tomviz/python/generate-operator-docs.py:219-223 | The compatibility note appears exactly when `externalCompatible` is present and falsy. |
| OperatorMarkdown.SignatureBlock | tomviz/python/generate-operator-docs.py:226-234 | The signature section appears exactly when there is code and a signature is found in it. |
| OperatorMarkdown.ParametersBlock | tomviz/python/generate-operator-docs.py:237-241 | The Parameters section appears exactly when `parameters` is present and non-empty. |
| OperatorMarkdown.ResultsBlock | tomviz/python/generate-operator-docs.py:244-250 | The Results section appears exactly when `results` is present and non-empty. |
| OperatorMarkdown.ChildrenBlock | tomviz/python/generate-operator-docs.py:253-259 | The Child Datasets section appears exactly when `children` is present and non-empty. |
| OperatorMarkdown.ImplementationBlock | tomviz/python/generate-operator-docs.py:262-270 | The Implementation section appears exactly when `_filename` is truthy. |
| OperatorMarkdown.ScriptNameOfJson | tomviz/python/generate-operator-docs.py:264 | A descriptor file `<stem>.json`, with no earlier ".json" in it, names the script `<stem>.py`. |
| OperatorMarkdown.MarkdownTextShape | tomviz/python/generate-operator-docs.py:208-275 | The page section opens with "## " and the title on its own line, and ends with a "---" line followed by an empty line. |
| OperatorMarkdown.MarkdownLineList | tomviz/python/generate-operator-docs.py:205-273 | The appends give the title, the description, the note, then the signature, parameters, results, children and implementation sections, then the closing rule. |
| OperatorMarkdown.AppendParameterTexts | tomviz/python/generate-operator-docs.py:240-241 | The parameters loop appends one formatted block per parameter, in order. |
| OperatorMarkdown.AppendResultTexts | tomviz/python/generate-operator-docs.py:249-250 | The results loop appends one formatted block per result, in order. |
| OperatorMarkdown.AppendChildTexts | tomviz/python/generate-operator-docs.py:258-259 | The children loop appends one formatted block per child, in order. |
| OperatorMarkdown.GenerateOperatorMarkdown | tomviz/python/generate-operator-docs.py:203-275 | The text is the page lines joined by newlines. It starts with the title heading and ends with "\n---\n". |
| DocsCategories.CategoryIndex | tomviz/python/generate-operator-docs.py:294-317 | The category is the first keyword group matched by the lower-cased name or label. When no group matches, it is Utilities. No earlier group matches. |
| DocsCategories.TableMembers | tomviz/python/generate-operator-docs.py:280-317 | The table has the seven categories in the fixed order. An operator is in category c's list exactly when it is one of the operators and c is its category. |
| DocsCategories.BucketMembers | tomviz/python/generate-operator-docs.py:290-317 | An operator is in a category's list exactly when that is its category, so it lands in exactly one. |
| DocsCategories.SelectAppend | tomviz/python/generate-operator-docs.py:290-317 | A category's list for a concatenation is the first part's list followed by the second's, so input order is preserved. |
| DocsCategories.NonEmptyMembers | tomviz/python/generate-operator-docs.py:320 | The result keeps exactly the categories whose lists are non-empty. |
| DocsCategories.CategorizedListsNonEmpty | tomviz/python/generate-operator-docs.py:320 | A category appears in the result exactly when some operator falls into it. |
| DocsCategories.CategorizedPartition | tomviz/python/generate-operator-docs.py:290-320 | The list sizes of the returned categories sum to the number of operators. |
| DocsCategories.Categorize | tomviz/python/generate-operator-docs.py:278-320 | The loop fills the seven lists in input order, and the empty ones are dropped. |
| StableSort.SortByCorrect | tomviz/python/generate-operator-docs.py:373 | Sorting gives a list ordered by key that is a permutation of its input. |
| StableSort.SortByStable | tomviz/python/generate-operator-docs.py:373 | Elements with equal keys keep their input order. |
| StableSort.InsertWithKey | tomviz/python/generate-operator-docs.py:373 | Inserting an element puts it ahead of every element with the same key. |
| Text.LexLeTotal | tomviz/python/generate-operator-docs.py:343 | Python's string order is total. |
| Text.LexLeTrans | tomviz/python/generate-operator-docs.py:343 | Python's string order is transitive. |
| Text.LexLeAntisymmetric | tomviz/python/generate-operator-docs.py:352 | Python's string order is antisymmetric. |
| DocsIndex.IndexLineList | tomviz/python/generate-operator-docs.py:332-356 | The index page holds the header and total, one summary line per category in sorted order, and a toctree of the slugs of the sorted category names. |
| DocsIndex.TocMatchesPages | tomviz/python/generate-operator-docs.py:352-364 | A toctree entry is the slug of a category exactly when that category gets a page, so the index lists exactly the pages written. |
| DocsIndex.CategoryPage | tomviz/python/generate-operator-docs.py:363-380 | A category page is named by its slug. It holds the header with the operator count, then each operator's section in label order. |
| DocsIndex.PageOrder | tomviz/python/generate-operator-docs.py:373 | On a page, the operators are sorted by label (else name), are a permutation of the category's list, and equal labels keep their order. |
| DocsIndex.GenerateAllDocs | tomviz/python/generate-operator-docs.py:323-380 | The files are `index.md`, then one page per category in category order, with the contents above. |
| DocsIndex.UpdatedIndex | tomviz/python/generate-operator-docs.py:395-408 | Text already containing "operators/index" is left alone, and so is text without "api/modules". A rewritten text contains "operators/index". |
| DocsIndex.UpdateIdempotent | tomviz/python/generate-operator-docs.py:395-408 | Running the update on its own output changes nothing. |
| DocsIndex.UpdateFirstMarker | tomviz/python/generate-operator-docs.py:401-402 | The first "api/modules" is followed by a newline and "operators/index". The text before it is unchanged, and the rest is rewritten the same way. |
| Text.ReplaceAllFirst | tomviz/python/generate-operator-docs.py:402 | `str.replace` rewrites the first occurrence, then the rest of the text. |
| Text.ReplaceAllAbsent | tomviz/python/generate-operator-docs.py:353 | `str.replace` leaves a text without the pattern unchanged. |
| Text.ReplaceAllInserts | tomviz/python/generate-operator-docs.py:402 | When the pattern occurs, the replacement occurs in the result. |
| Text.Lower | tomviz/python/generate-operator-docs.py:291-292 | `lower()` keeps the length and lowers each ASCII capital. |
| PyValue.GetFirst | tomviz/python/generate-operator-docs.py:208-214 | When the key is present, `dict.get` returns the value of an entry with that key, and no earlier entry has the key. When the key is absent, it returns the default. |
| PyValue.Show | tomviz/python/generate-operator-docs.py:100-147 | `str()` gives a string itself, "None", "True" or "False", and a bracketed repr for lists and dictionaries. |
| PyValue.QuoteFor | tomviz/python/generate-operator-docs.py:133-135 | `repr` quotes with `"` exactly when the text has a `'` and no `"`. The chosen quote occurs in the text only when both kinds of quote do. |
| PyValue.NatTextValue | tomviz/python/generate-operator-docs.py:344 | The decimal text of a count reads back as that count. |

## Left out

- The CPython C API is not modelled: `Py_CompileString`, module import and execution, `PyObject_Call`, pybind11 capsules, the GIL and `CheckForError`. These outcomes are inputs, given by `Environment` or passed to `ApplyTransform`.
- The `tomviz._internal` module is not modelled. Its `is_cancelable` and `find_transform_scalars` lookups are folded into the compile outcomes.
- Qt's cross-thread signal delivery (`connect`), the slots `createNewChildDataSource` and `setOperatorResult`, and the editor widget are not modelled. Emitted signals are appended to a log, and the data objects are identified by number.
- jsoncpp parsing is not modelled: the reader's outcome is `Option<Json>`, given the descriptor's Latin-1 bytes up to the first NUL. The strings of the parsed tree are taken to be the text the operator ends up with. jsoncpp's escapes, the NUL that ends `asCString()`, and Qt's UTF-8 decoding of that C string are all part of the reader's outcome. For example, a raw "é" in a descriptor reaches the reader as the byte 0xE9, and what label that gives is up to `Environment.parseJson`. Where jsoncpp would assert, for example when indexing a non-object by key or a non-array by position, the model uses lenient accessors of its own instead: a key of a non-object is null, the size of a non-array is 0, and a non-string reads as "". These are not jsoncpp's behaviour; they only make the model total.
- `Operator::setNumberOfResults` and `resultAt` are in Operator.cxx, which is not part of this model. The model assumes the resize keeps the existing slots and adds blank ones. It also assumes the base class starts with no slots, no child data source and no cancel support.
- `vtkPythonUtil::GetPointerFromObject` may leave a Python TypeError pending when a result or child is not a VTK object. The final `CheckForError` then fails `applyTransform`. That case is carried by the `errorPending` argument of `ApplyTransform`, not derived from the dictionary. `ResultDemux` only says that such a value sets no error flag of its own.
- Qt's handling of malformed UTF-8 when it builds a `QString` from C-string bytes is not modelled. `Environment.decodeMalformed` gives the result for such bytes.
- SerializeRoundTrip: the label and script come back exactly only for ASCII text without NUL. Otherwise the contract states what comes back: the Latin-1 bytes up to the first NUL, decoded as UTF-8. A character outside Latin-1 becomes '?', or "??" when it is above U+FFFF. Latin-1 characters above 0x7F give bytes that are either not UTF-8, which is left to `Environment.decodeMalformed`, or UTF-8 for other characters ("Ã©" comes back as "é").
- The `qCritical` diagnostics, the `print` messages and the repr of the returned dictionary are output only.
- Descriptor dictionaries come from `json.load`, so their keys are unique. `PyValue.Value` admits duplicate keys, and there `Get` takes the first entry, where a Python dict built by `json.load` would hold the last value. The model's results say nothing about dictionaries with duplicate keys beyond that.
- Python values have no floats. Descriptor numbers are integers or strings here, so `str()` of a float is not modelled.
- PyValue.Show: `repr` escapes `\t`, `\n`, `\r`, other control characters and `\x7f`. It does not model Python's escapes for non-printable characters above `\x7f`.
- Text.Lower: only ASCII letters are lowered, not the rest of Unicode case mapping.
- `extract_function_signature` uses a direct scanner for its one pattern, not a regex engine. Its `\s` is Python's Unicode whitespace set, written out in `Text.IsSpace`.
- Sorting is modelled on values as a stable insertion sort, so the in-place `list.sort` and the shared list objects are not modelled. `sorted(categorized.items())` is modelled as a sort by category name, which is the same order because the names are distinct.
- Preconditions exclude inputs on which the script raises a TypeError or AttributeError. Examples are a non-dictionary descriptor, a non-string `name`, `label` or `description`, and a non-iterable `parameters`. `categorize_operators` on such input raises. `DocsCategories.CategoryOf` still gives such operators a category, namely Utilities, only so that it is a total function.
- File and network I/O are not modelled: `fetch_github_json`, `load_local_json_files`, `main`, directory creation, and writing the pages. `generate_all_docs` returns the (file name, contents) pairs it would write. `update_main_index` is modelled on the file's contents, and a missing `index.md` is the caller's concern.
