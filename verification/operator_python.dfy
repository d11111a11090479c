/**
 * The Python operator of tomviz (tomviz/OperatorPython.cxx): a label, a
 * script, a JSON descriptor and the declarations read from it, plus the
 * handles obtained by compiling the script.
 *
 * The embedded Python interpreter and the JSON reader stay outside the model:
 * an `Environment` says what compiling a script, importing `tomviz.utils` and
 * parsing a descriptor come to, and applyTransform is told what the Python
 * call returned. The Qt signals the operator emits are appended to `signals`.
 */
module Operators {
  import opened Wrappers
  import opened JsonTree
  import opened OperatorDescriptor
  import opened ResultDemux
  import opened Encoding

  /**
   * How far the compile chain of setScript gets for one (script, label):
   * Py_CompileString, PyImport_ExecCodeModule, find_transform_scalars, and
   * is_cancelable (None when that call fails, otherwise its answer).
   */
  datatype CompileSteps = CompileSteps(
    compiles: bool,
    createsModule: bool,
    findsTransform: bool,
    cancelable: Option<bool>)

  /** The world outside the operator, fixed for the life of the process. */
  datatype Environment = Environment(
    utilsImported: bool,                          // PyImport_ImportModule("tomviz.utils") succeeded
    compile: (string, string) -> CompileSteps,    // outcome for (script, label)
    parseJson: string -> Option<Json>,            // Json::Reader::parse of the bytes; None on a parse failure
    decodeMalformed: string -> string)            // QString::fromUtf8 on bytes that are not UTF-8

  /** What calling the transform method came to: an exception, or a returned value. */
  datatype Execution =
    | Raised
    | Returned(dict: Option<OutputDict>)   // None: the value is not a dictionary

  /**
   * `reader.parse(str.toLatin1().data(), root)`: the reader sees the
   * descriptor's Latin-1 bytes up to the first NUL.
   */
  function ParseDescriptor(env: Environment, str: string): Option<Json>
  {
    env.parseJson(CString(Latin1(str)))
  }

  /**
   * The reader cannot tell apart two descriptors that differ in one character
   * when both characters encode alike, such as "α" and "?" or "α" and "β".
   */
  lemma DescriptorSeesLatin1(env: Environment, a: string, x: char, y: char, b: string)
    requires Latin1Char(x) == Latin1Char(y)
    ensures ParseDescriptor(env, a + [x] + b) == ParseDescriptor(env, a + [y] + b)
  {
    Latin1Append(a + [x], b);
    Latin1Append(a, [x]);
    Latin1Append(a + [y], b);
    Latin1Append(a, [y]);
    assert Latin1([x]) == Latin1Char(x) + Latin1([]);
    assert Latin1([y]) == Latin1Char(y) + Latin1([]);
  }

  /**
   * `QString(const char*)`: the bytes decoded as UTF-8. What Qt makes of
   * bytes that are not well-formed UTF-8 is left to the environment.
   */
  function QtString(env: Environment, bytes: string): string
  {
    match Utf8Decode(bytes)
    case Some(s) => s
    case None => env.decodeMalformed(bytes)
  }

  /** A persisted XML element: its attributes, in the order they were appended. */
  type XmlNode = seq<(string, string)>

  predicate HasAttribute(node: XmlNode, name: string)
  {
    exists i :: 0 <= i < |node| && node[i].0 == name
  }

  /** `node.attribute(name).as_string()`: the first attribute with that name, "" when there is none. */
  function AttributeValue(node: XmlNode, name: string): string
  {
    if node == [] then ""
    else if node[0].0 == name then node[0].1
    else AttributeValue(node[1..], name)
  }

  /** Attributes appended after the first one with a name do not change what is read back. */
  lemma {:induction false} AttributeValueAppend(node: XmlNode, more: XmlNode, name: string)
    ensures HasAttribute(node, name) ==> AttributeValue(node + more, name) == AttributeValue(node, name)
    ensures !HasAttribute(node, name) ==> AttributeValue(node + more, name) == AttributeValue(more, name)
  {
    if node != [] {
      assert (node + more)[1..] == node[1..] + more;
      AttributeValueAppend(node[1..], more, name);
      if node[0].0 != name {
        assert HasAttribute(node, name) ==> HasAttribute(node[1..], name) by {
          if HasAttribute(node, name) {
            var i :| 0 <= i < |node| && node[i].0 == name;
            assert node[1..][i - 1] == node[i];
          }
        }
        assert HasAttribute(node[1..], name) ==> HasAttribute(node, name) by {
          if HasAttribute(node[1..], name) {
            var i :| 0 <= i < |node[1..]| && node[1..][i].0 == name;
            assert node[i + 1] == node[1..][i];
          }
        }
      } else {
        assert node[0].0 == name;
      }
    } else {
      assert node + more == more;
    }
  }

  /**
   * The results loop of setJSONDescription: resizes the slots to the array
   * length, then gives slot i the name and label of entry i where they are
   * non-null, collecting the non-null names in order.
   */
  method ReadResults(resultsNode: Json, slots: seq<ResultSlot>) returns (configured: seq<ResultSlot>, names: seq<string>)
    ensures configured == ConfiguredSlots(slots, Elements(resultsNode))
    ensures names == DeclaredNames(Elements(resultsNode))
  {
    var entries := Elements(resultsNode);
    var numResults := |entries|;
    configured := Resized(slots, numResults);
    names := [];
    ghost var resized := configured;
    for i := 0 to numResults
      invariant |configured| == numResults
      invariant forall k :: 0 <= k < i ==> configured[k] == Configured(resized[k], entries[k])
      invariant forall k :: i <= k < numResults ==> configured[k] == resized[k]
      invariant names == DeclaredNames(entries[..i])
    {
      assert entries[..i + 1][..i] == entries[..i];
      var entry := At(resultsNode, i);
      var nameValue := Member(entry, "name");
      if !nameValue.JNull? {
        configured := configured[i := configured[i].(name := AsString(nameValue))];
        names := names + [AsString(nameValue)];
      }
      var labelValue := Member(entry, "label");
      if !labelValue.JNull? {
        configured := configured[i := configured[i].(labelText := AsString(labelValue))];
      }
    }
    assert entries[..numResults] == entries;
  }

  /**
   * The children block of setJSONDescription: a non-empty array announces a
   * child data source, and only entry 0 is read; its (name, label) pair is
   * recorded when both are non-null.
   */
  method ReadChildren(childNode: Json) returns (announces: bool, children: seq<(string, string)>)
    ensures announces <==> |Elements(childNode)| > 0
    ensures children == DeclaredChild(childNode)
  {
    children := [];
    var size := |Elements(childNode)|;
    announces := size > 0;
    if size > 0 {
      var nameValue := Member(At(childNode, 0), "name");
      var labelValue := Member(At(childNode, 0), "label");
      if !nameValue.JNull? && !labelValue.JNull? {
        children := children + [(AsString(nameValue), AsString(labelValue))];
      }
    }
  }

  const DEFAULT_LABEL := "Python Operator"

  class OperatorPython {
    const env: Environment

    var labelText: string
    var script: string
    var jsonDescription: string
    var resultNames: seq<string>
    var childNamesAndLabels: seq<(string, string)>
    var resultSlots: seq<ResultSlot>
    var hasChildDataSource: bool
    var supportsCancel: bool

    // Which Python handles are set (OPInternals).
    var operatorModule: bool
    var code: bool
    var transformModule: bool
    var transformMethod: bool

    var signals: seq<Signal>

    /** The handles are obtained in order, so a later one is only set when the earlier ones are. */
    ghost predicate Valid()
      reads this
    {
      (transformMethod ==> transformModule) && (transformModule ==> code)
    }

    /** The handles are those a compile with these outcomes leaves. */
    ghost predicate CompiledFrom(steps: CompileSteps)
      reads this
    {
      && code == steps.compiles
      && transformModule == (steps.compiles && steps.createsModule)
      && transformMethod == (steps.compiles && steps.createsModule && steps.findsTransform)
    }

    /** applyTransform will call into Python (otherwise it is the identity). */
    predicate Ready()
      reads this
    {
      script != "" && operatorModule && transformMethod
    }

    constructor (env: Environment)
      ensures this.env == env && Valid()
      ensures labelText == DEFAULT_LABEL && script == "" && jsonDescription == ""
      ensures resultNames == [] && childNamesAndLabels == [] && resultSlots == []
      ensures !hasChildDataSource && !supportsCancel
      ensures operatorModule == env.utilsImported
      ensures !code && !transformModule && !transformMethod
      ensures signals == []
      ensures !Ready()
    {
      this.env := env;
      labelText := DEFAULT_LABEL;
      script := "";
      jsonDescription := "";
      resultNames := [];
      childNamesAndLabels := [];
      resultSlots := [];
      hasChildDataSource := false;
      supportsCancel := false;
      operatorModule := env.utilsImported;
      code, transformModule, transformMethod := false, false, false;
      signals := [];
    }

    method SetLabel(txt: string)
      modifies this`labelText, this`signals
      ensures labelText == txt
      ensures signals == old(signals) + [LabelModified]
    {
      labelText := txt;
      signals := signals + [LabelModified];
    }

    /**
     * Reads the declarations out of a descriptor. An unchanged string is a
     * no-op; a string that fails to parse is stored and nothing else changes;
     * otherwise the label (when given), result slots, result names and child
     * declarations are replaced by what the descriptor says.
     */
    method SetJSONDescription(str: string)
      modifies this`jsonDescription, this`labelText, this`signals, this`resultSlots,
               this`resultNames, this`childNamesAndLabels, this`hasChildDataSource
      ensures jsonDescription == str
      ensures str == old(jsonDescription) || ParseDescriptor(env, str).None? ==>
                unchanged(this`labelText, this`signals, this`resultSlots, this`resultNames,
                          this`childNamesAndLabels, this`hasChildDataSource)
      ensures str != old(jsonDescription) && ParseDescriptor(env, str).Some? ==>
                var root := ParseDescriptor(env, str).value;
                && labelText == DescribedLabel(root, old(labelText))
                && signals == old(signals) + (if Member(root, "label").JNull? then [] else [LabelModified])
                && resultSlots == DescribedSlots(root, old(resultSlots))
                && resultNames == DescribedNames(root)
                && childNamesAndLabels == DescribedChildren(root)
                && hasChildDataSource == (old(hasChildDataSource) || DescribesChild(root))
    {
      if jsonDescription != str {
        jsonDescription := str;
        var parsed := ParseDescriptor(env, str);
        if parsed.Some? {
          var root := parsed.value;
          var labelNode := Member(root, "label");
          if !labelNode.JNull? {
            SetLabel(AsString(labelNode));
          }
          ReadDeclarations(root);
        }
      }
    }

    /**
     * The rest of setJSONDescription after a successful parse: the old result
     * names and child declarations are cleared and rebuilt from `results` and
     * `children`.
     */
    method ReadDeclarations(root: Json)
      modifies this`resultSlots, this`resultNames, this`childNamesAndLabels, this`hasChildDataSource
      ensures resultSlots == DescribedSlots(root, old(resultSlots))
      ensures resultNames == DescribedNames(root)
      ensures childNamesAndLabels == DescribedChildren(root)
      ensures hasChildDataSource == (old(hasChildDataSource) || DescribesChild(root))
    {
      resultNames := [];
      childNamesAndLabels := [];

      var resultsNode := Member(root, "results");
      if !resultsNode.JNull? {
        resultSlots, resultNames := ReadResults(resultsNode, resultSlots);
      }

      var childNode := Member(root, "children");
      if !childNode.JNull? {
        var announces;
        announces, childNamesAndLabels := ReadChildren(childNode);
        if announces {
          hasChildDataSource := true;
        }
      }
    }

    /**
     * Replaces the script. An equal script is a no-op; a different one drops
     * the compiled handles and rebuilds them step by step, stopping at the
     * first step that fails. Only a complete chain updates the cancel flag and
     * signals transformModified.
     */
    method SetScript(str: string)
      requires Valid()
      modifies this`script, this`code, this`transformModule, this`transformMethod,
               this`supportsCancel, this`signals
      ensures Valid()
      ensures str == old(script) ==> unchanged(this)
      ensures str != old(script) ==>
                var steps := env.compile(str, labelText);
                && script == str
                && CompiledFrom(steps)
                && (if transformMethod && steps.cancelable.Some?
                    then supportsCancel == steps.cancelable.value && signals == old(signals) + [TransformModified]
                    else supportsCancel == old(supportsCancel) && signals == old(signals))
    {
      if script != str {
        script := str;
        code, transformModule, transformMethod := false, false, false;
        var steps := env.compile(script, labelText);

        code := steps.compiles;
        if !code {
          return;
        }
        transformModule := steps.createsModule;
        if !transformModule {
          return;
        }
        transformMethod := steps.findsTransform;
        if !transformMethod {
          return;
        }
        if steps.cancelable.None? {
          return;
        }
        supportsCancel := steps.cancelable.value;
        signals := signals + [TransformModified];
      }
    }

    /**
     * Runs the transform. Without a script, the utils module or a transform
     * method it is the identity and succeeds. Otherwise an exception fails it;
     * a returned dictionary is demultiplexed into result and child signals,
     * and `errorEncountered` reports a declared name missing from it. The
     * final check for a pending Python error decides success.
     */
    method ApplyTransform(outcome: Execution, errorPending: bool) returns (ok: bool, errorEncountered: bool)
      modifies this`signals
      ensures !old(Ready()) ==> ok && !errorEncountered && signals == old(signals)
      ensures old(Ready()) && outcome.Raised? ==> !ok && !errorEncountered && signals == old(signals)
      ensures old(Ready()) && outcome.Returned? ==> ok == !errorPending
      ensures old(Ready()) && outcome.Returned? && outcome.dict.None? ==> !errorEncountered && signals == old(signals)
      ensures old(Ready()) && outcome.Returned? && outcome.dict.Some? ==>
                var out := outcome.dict.value;
                && signals == old(signals) + ResultSignals(resultNames, out, LookupKey) + ChildSignals(childNamesAndLabels, out, LookupKey)
                && (errorEncountered <==> SomeResultMissing(resultNames, out, LookupKey) || SomeChildMissing(childNamesAndLabels, out, LookupKey))
    {
      errorEncountered := false;
      if script == "" {
        return true, false;
      }
      if !operatorModule || !transformMethod {
        return true, false;
      }
      match outcome
      case Raised =>
        return false, false;
      case Returned(dict) =>
        if dict.Some? {
          var emitted;
          emitted, errorEncountered := Demultiplex(resultNames, childNamesAndLabels, dict.value, LookupKey);
          signals := signals + emitted;
        }
        ok := !errorPending;
    }

    /**
     * serialize: appends the `label` and `script` attributes to the element,
     * each as its Latin-1 bytes up to the first NUL.
     */
    function Serialize(node: XmlNode): (r: XmlNode)
      reads this
      ensures |r| == |node| + 2 && r[..|node|] == node
      ensures !HasAttribute(node, "label") ==> AttributeValue(r, "label") == CString(Latin1(labelText))
      ensures !HasAttribute(node, "script") ==> AttributeValue(r, "script") == CString(Latin1(script))
    {
      var added := [("label", CString(Latin1(labelText))), ("script", CString(Latin1(script)))];
      AttributeValueAppend(node, added, "label");
      AttributeValueAppend(node, added, "script");
      node + added
    }

    /** deserialize: sets the label, then the script (recompiling when it differs), each decoded from its attribute. */
    method Deserialize(node: XmlNode) returns (ok: bool)
      requires Valid()
      modifies this`labelText, this`script, this`code, this`transformModule, this`transformMethod,
               this`supportsCancel, this`signals
      ensures Valid() && ok
      ensures labelText == QtString(env, AttributeValue(node, "label"))
      ensures script == QtString(env, AttributeValue(node, "script"))
      ensures script != old(script) ==> CompiledFrom(env.compile(script, labelText))
      ensures script == old(script) ==> unchanged(this`code, this`transformModule, this`transformMethod, this`supportsCancel)
      ensures var steps := env.compile(script, labelText);
              if script != old(script) && transformMethod && steps.cancelable.Some?
              then supportsCancel == steps.cancelable.value && signals == old(signals) + [LabelModified, TransformModified]
              else supportsCancel == old(supportsCancel) && signals == old(signals) + [LabelModified]
    {
      SetLabel(QtString(env, AttributeValue(node, "label")));
      SetScript(QtString(env, AttributeValue(node, "script")));
      return true;
    }

    /**
     * clone: a new operator in the same environment that is given this
     * label, script and descriptor, in that order. The descriptor is applied
     * last, so a label it carries wins over the copied one.
     */
    method Clone() returns (c: OperatorPython)
      ensures fresh(c) && c.env == env && c.Valid()
      ensures c.script == script && c.jsonDescription == jsonDescription
      ensures c.operatorModule == env.utilsImported
      ensures script == "" ==> !c.code && !c.transformModule && !c.transformMethod
      ensures script != "" ==> c.CompiledFrom(env.compile(script, labelText))
      ensures var steps := env.compile(script, labelText);
              var completes := script != "" && c.transformMethod && steps.cancelable.Some?;
              var parsed := if jsonDescription == "" then None else ParseDescriptor(env, jsonDescription);
              && c.supportsCancel == (completes && steps.cancelable.value)
              && c.signals == [LabelModified] + (if completes then [TransformModified] else [])
                              + (if parsed.Some? && !Member(parsed.value, "label").JNull? then [LabelModified] else [])
      ensures jsonDescription == "" || ParseDescriptor(env, jsonDescription).None? ==>
                && c.labelText == labelText && c.resultSlots == [] && c.resultNames == []
                && c.childNamesAndLabels == [] && !c.hasChildDataSource
      ensures jsonDescription != "" && ParseDescriptor(env, jsonDescription).Some? ==>
                var root := ParseDescriptor(env, jsonDescription).value;
                && c.labelText == DescribedLabel(root, labelText)
                && c.resultSlots == DescribedSlots(root, [])
                && c.resultNames == DescribedNames(root)
                && c.childNamesAndLabels == DescribedChildren(root)
                && c.hasChildDataSource == DescribesChild(root)
    {
      c := CopyLabelAndScript();
      c.SetJSONDescription(jsonDescription);
    }

    /** The first three steps of clone: a new operator given this label, then this script. */
    method CopyLabelAndScript() returns (c: OperatorPython)
      ensures fresh(c) && c.env == env && c.Valid()
      ensures c.labelText == labelText && c.script == script && c.jsonDescription == ""
      ensures c.resultSlots == [] && c.resultNames == [] && c.childNamesAndLabels == [] && !c.hasChildDataSource
      ensures c.operatorModule == env.utilsImported
      ensures script == "" ==> !c.code && !c.transformModule && !c.transformMethod
      ensures script != "" ==> c.CompiledFrom(env.compile(script, labelText))
      ensures var steps := env.compile(script, labelText);
              var completes := script != "" && c.transformMethod && steps.cancelable.Some?;
              && c.supportsCancel == (completes && steps.cancelable.value)
              && c.signals == [LabelModified] + (if completes then [TransformModified] else [])
    {
      c := new OperatorPython(env);
      c.SetLabel(labelText);
      c.SetScript(script);
    }
  }

  /**
   * Persisting an operator and loading the element into another one gives it
   * the label and script as they come back from Latin-1 bytes; ASCII text
   * without NUL comes back unchanged.
   */
  method SerializeRoundTrip(source: OperatorPython, target: OperatorPython)
    requires target.Valid()
    modifies target`labelText, target`script, target`code, target`transformModule,
             target`transformMethod, target`supportsCancel, target`signals
    ensures target.labelText == QtString(target.env, CString(Latin1(old(source.labelText))))
    ensures target.script == QtString(target.env, CString(Latin1(old(source.script))))
    ensures IsAsciiText(old(source.labelText)) ==> target.labelText == old(source.labelText)
    ensures IsAsciiText(old(source.script)) ==> target.script == old(source.script)
  {
    var node := source.Serialize([]);
    if IsAsciiText(source.labelText) {
      AsciiTextSurvives(source.labelText);
    }
    if IsAsciiText(source.script) {
      AsciiTextSurvives(source.script);
    }
    var ok := target.Deserialize(node);
  }

  /** A script whose transform method cannot be found leaves the operator inert: the next transform is the identity. */
  method FailedBindIsIdentity(op: OperatorPython, str: string, outcome: Execution, errorPending: bool)
    returns (ok: bool, errorEncountered: bool)
    requires op.Valid() && str != op.script
    requires !op.env.compile(str, op.labelText).findsTransform
    modifies op`script, op`code, op`transformModule, op`transformMethod, op`supportsCancel, op`signals
    ensures op.script == str && !op.transformMethod
    ensures ok && !errorEncountered
    ensures op.signals == old(op.signals)
  {
    op.SetScript(str);
    ok, errorEncountered := op.ApplyTransform(outcome, errorPending);
  }
}
