/**
 * The dictionary demultiplexing at the end of OperatorPython::applyTransform
 * (tomviz/OperatorPython.cxx): the declared result names and child data
 * source names are looked up in the dictionary the transform returned.
 */
module ResultDemux {
  import opened Wrappers
  import opened Encoding

  /** A value of the returned dictionary: a VTK data object (by identity) or anything else. */
  datatype PyVal = DataObj(id: nat) | Other

  type OutputDict = map<string, PyVal>

  /** The dictionary key a declared name is looked up under, None when the lookup cannot be made. */
  type KeyOf = string -> Option<string>

  /** The operator's Qt signals, in the order they are emitted. */
  datatype Signal =
    | LabelModified
    | TransformModified
    | NewOperatorResult(name: string, data: nat)
    | NewChildDataSource(childLabel: string, data: nat)

  /**
   * The key `PyDict_GetItemString` looks a declared name up under: its
   * `toLatin1()` bytes up to the first NUL, decoded strictly as UTF-8. None
   * when they do not decode; the lookup then finds nothing.
   */
  function LookupKey(name: string): Option<string>
  {
    Utf8Decode(CString(Latin1(name)))
  }

  /** The lookup for `name` finds an entry. */
  predicate Found(out: OutputDict, key: KeyOf, name: string)
  {
    key(name).Some? && key(name).value in out
  }

  /** The entry the lookup for `name` finds. */
  function ValueOf(out: OutputDict, key: KeyOf, name: string): PyVal
    requires Found(out, key, name)
  {
    out[key(name).value]
  }

  /** The lookup for `name` finds a data object. */
  predicate IsDataObject(out: OutputDict, key: KeyOf, name: string)
  {
    Found(out, key, name) && ValueOf(out, key, name).DataObj?
  }

  /** An ASCII name without NUL is looked up under itself. */
  lemma AsciiNameIsKey(out: OutputDict, name: string)
    requires IsAsciiText(name)
    ensures LookupKey(name) == Some(name)
    ensures Found(out, LookupKey, name) <==> name in out
  {
    AsciiTextSurvives(name);
  }

  /** A result named "α" is looked up as "?", so it is reported missing although the dictionary holds it. */
  lemma NonLatin1NameMissed()
    ensures var out := map["\U{3B1}" := DataObj(0)];
            SomeResultMissing(["\U{3B1}"], out, LookupKey) && ResultSignals(["\U{3B1}"], out, LookupKey) == []
  {
    var name := "\U{3B1}";
    assert Latin1(name) == "?";
    AsciiTextSurvives("?");
    assert LookupKey(name) == Some("?");
    assert ["\U{3B1}"][0] == name;
    assert ["\U{3B1}"][..0] == [];
  }

  /**
   * A result named "😀" (a surrogate pair in Qt) is looked up as "??": it is
   * found, and signalled under its declared name, when the dictionary holds "??".
   */
  lemma SurrogatePairNameKey()
    ensures LookupKey("\U{1F600}") == Some("??")
    ensures var out := map["??" := DataObj(0)];
            !SomeResultMissing(["\U{1F600}"], out, LookupKey)
            && ResultSignals(["\U{1F600}"], out, LookupKey) == [NewOperatorResult("\U{1F600}", 0)]
  {
    var name := "\U{1F600}";
    SurrogatePairReplaced();
    assert LookupKey(name) == Some("??");
    assert ["\U{1F600}"][0] == name;
    assert ["\U{1F600}"][..0] == [];
  }

  /** The signals the results loop emits for the declared names, in order. */
  function ResultSignals(names: seq<string>, out: OutputDict, key: KeyOf): seq<Signal>
  {
    if names == [] then []
    else
      var name := names[|names| - 1];
      ResultSignals(names[..|names| - 1], out, key)
      + (if IsDataObject(out, key, name) then [NewOperatorResult(name, ValueOf(out, key, name).id)] else [])
  }

  /** The signals the children loop emits for the declared (name, label) pairs, in order. */
  function ChildSignals(pairs: seq<(string, string)>, out: OutputDict, key: KeyOf): seq<Signal>
  {
    if pairs == [] then []
    else
      var pair := pairs[|pairs| - 1];
      ChildSignals(pairs[..|pairs| - 1], out, key)
      + (if IsDataObject(out, key, pair.0) then [NewChildDataSource(pair.1, ValueOf(out, key, pair.0).id)] else [])
  }

  /** The lookup of some declared result name finds nothing. */
  predicate SomeResultMissing(names: seq<string>, out: OutputDict, key: KeyOf)
  {
    exists i :: 0 <= i < |names| && !Found(out, key, names[i])
  }

  /** The lookup of some declared child name finds nothing. */
  predicate SomeChildMissing(pairs: seq<(string, string)>, out: OutputDict, key: KeyOf)
  {
    exists i :: 0 <= i < |pairs| && !Found(out, key, pairs[i].0)
  }

  /**
   * The two loops of applyTransform over a returned dictionary: the signals
   * they emit, in order, and the `errorEncountered` flag they leave.
   */
  method Demultiplex(names: seq<string>, pairs: seq<(string, string)>, out: OutputDict, key: KeyOf)
    returns (emitted: seq<Signal>, errorEncountered: bool)
    ensures emitted == ResultSignals(names, out, key) + ChildSignals(pairs, out, key)
    ensures errorEncountered <==> SomeResultMissing(names, out, key) || SomeChildMissing(pairs, out, key)
  {
    emitted := [];
    errorEncountered := false;
    for i := 0 to |names|
      invariant emitted == ResultSignals(names[..i], out, key)
      invariant errorEncountered <==> SomeResultMissing(names[..i], out, key)
    {
      assert names[..i + 1][..i] == names[..i];
      var name := names[i];
      var found := key(name);
      if found.None? || found.value !in out {
        errorEncountered := true;
        assert !Found(out, key, names[..i + 1][i]);
        continue;
      }
      match out[found.value]
      case DataObj(id) =>
        emitted := emitted + [NewOperatorResult(name, id)];
      case Other =>
    }
    assert names[..|names|] == names;
    ghost var afterResults := emitted;
    for i := 0 to |pairs|
      invariant emitted == afterResults + ChildSignals(pairs[..i], out, key)
      invariant errorEncountered <==> SomeResultMissing(names, out, key) || SomeChildMissing(pairs[..i], out, key)
    {
      assert pairs[..i + 1][..i] == pairs[..i];
      var (name, childLabel) := pairs[i];
      var found := key(name);
      if found.None? || found.value !in out {
        errorEncountered := true;
        assert !Found(out, key, pairs[..i + 1][i].0);
        continue;
      }
      if out[found.value].DataObj? {
        emitted := emitted + [NewChildDataSource(childLabel, out[found.value].id)];
      }
    }
    assert pairs[..|pairs|] == pairs;
  }

  /** Each result signal names a declared result whose value is a data object it carries. */
  lemma {:induction false} ResultSignalsSound(names: seq<string>, out: OutputDict, key: KeyOf, k: nat)
    requires k < |ResultSignals(names, out, key)|
    ensures var s := ResultSignals(names, out, key)[k];
            s.NewOperatorResult? && s.name in names && IsDataObject(out, key, s.name) && ValueOf(out, key, s.name) == DataObj(s.data)
  {
    var init := names[..|names| - 1];
    if k < |ResultSignals(init, out, key)| {
      ResultSignalsSound(init, out, key, k);
      assert ResultSignals(names, out, key)[k] == ResultSignals(init, out, key)[k];
      assert forall n :: n in init ==> n in names;
    }
  }

  /** Every declared result that holds a data object is signalled. */
  lemma {:induction false} ResultSignalsComplete(names: seq<string>, out: OutputDict, key: KeyOf, i: nat)
    requires i < |names| && IsDataObject(out, key, names[i])
    ensures NewOperatorResult(names[i], ValueOf(out, key, names[i]).id) in ResultSignals(names, out, key)
  {
    var init := names[..|names| - 1];
    if i < |init| {
      assert init[i] == names[i];
      ResultSignalsComplete(init, out, key, i);
    }
  }

  /** When every declared result holds a data object, there is exactly one signal per name, in order. */
  lemma {:induction false} ResultSignalsAllValid(names: seq<string>, out: OutputDict, key: KeyOf)
    requires forall i :: 0 <= i < |names| ==> IsDataObject(out, key, names[i])
    ensures |ResultSignals(names, out, key)| == |names|
    ensures forall i :: 0 <= i < |names| ==>
              IsDataObject(out, key, names[i]) && ResultSignals(names, out, key)[i] == NewOperatorResult(names[i], ValueOf(out, key, names[i]).id)
  {
    if names != [] {
      var init := names[..|names| - 1];
      assert forall i :: 0 <= i < |init| ==> init[i] == names[i];
      ResultSignalsAllValid(init, out, key);
    }
  }

  /** There are never more result signals than declared names. */
  lemma {:induction false} ResultSignalsBound(names: seq<string>, out: OutputDict, key: KeyOf)
    ensures |ResultSignals(names, out, key)| <= |names|
  {
    if names != [] {
      ResultSignalsBound(names[..|names| - 1], out, key);
    }
  }

  /** Each child signal carries the label of a declared pair whose name holds the data object. */
  lemma {:induction false} ChildSignalsSound(pairs: seq<(string, string)>, out: OutputDict, key: KeyOf, k: nat)
    requires k < |ChildSignals(pairs, out, key)|
    ensures var s := ChildSignals(pairs, out, key)[k];
            s.NewChildDataSource?
            && exists i :: 0 <= i < |pairs| && pairs[i].1 == s.childLabel && IsDataObject(out, key, pairs[i].0)
                           && ValueOf(out, key, pairs[i].0) == DataObj(s.data)
  {
    var init := pairs[..|pairs| - 1];
    if k < |ChildSignals(init, out, key)| {
      ChildSignalsSound(init, out, key, k);
      var s := ChildSignals(init, out, key)[k];
      assert ChildSignals(pairs, out, key)[k] == s;
      var i :| 0 <= i < |init| && init[i].1 == s.childLabel && IsDataObject(out, key, init[i].0) && ValueOf(out, key, init[i].0) == DataObj(s.data);
      assert pairs[i] == init[i];
    } else {
      assert 0 <= |pairs| - 1 < |pairs|;
    }
  }

  /** Every declared child whose name holds a data object is signalled, under its label. */
  lemma {:induction false} ChildSignalsComplete(pairs: seq<(string, string)>, out: OutputDict, key: KeyOf, i: nat)
    requires i < |pairs| && IsDataObject(out, key, pairs[i].0)
    ensures NewChildDataSource(pairs[i].1, ValueOf(out, key, pairs[i].0).id) in ChildSignals(pairs, out, key)
  {
    var init := pairs[..|pairs| - 1];
    if i < |init| {
      assert init[i] == pairs[i];
      ChildSignalsComplete(init, out, key, i);
    }
  }

  /**
   * A declared result that is present but not a data object is skipped
   * silently: it raises no error and emits nothing, so the outcome is the same
   * as if it had not been declared.
   */
  lemma NonDataResultIsSkipped(before: seq<string>, name: string, after: seq<string>, out: OutputDict, key: KeyOf)
    requires Found(out, key, name) && ValueOf(out, key, name).Other?
    ensures ResultSignals(before + [name] + after, out, key) == ResultSignals(before + after, out, key)
    ensures SomeResultMissing(before + [name] + after, out, key) <==> SomeResultMissing(before + after, out, key)
  {
    NonDataSignalsSkipped(before, name, after, out, key);
    FoundNameNeverMissing(before, name, after, out, key);
  }

  /** Declaring a name whose value is not a data object adds no result signal. */
  lemma {:induction false} NonDataSignalsSkipped(before: seq<string>, name: string, after: seq<string>, out: OutputDict, key: KeyOf)
    requires Found(out, key, name) && ValueOf(out, key, name).Other?
    ensures ResultSignals(before + [name] + after, out, key) == ResultSignals(before + after, out, key)
    decreases |after|
  {
    var all := before + [name] + after;
    var rest := before + after;
    if after == [] {
      assert all[..|all| - 1] == before && rest == before;
    } else {
      var after' := after[..|after| - 1];
      assert all[..|all| - 1] == before + [name] + after';
      assert rest[..|rest| - 1] == before + after';
      assert all[|all| - 1] == rest[|rest| - 1];
      NonDataSignalsSkipped(before, name, after', out, key);
    }
  }

  /** Declaring a name the lookup finds cannot make a name missing. */
  lemma FoundNameNeverMissing(before: seq<string>, name: string, after: seq<string>, out: OutputDict, key: KeyOf)
    requires Found(out, key, name)
    ensures SomeResultMissing(before + [name] + after, out, key) <==> SomeResultMissing(before + after, out, key)
  {
    var all := before + [name] + after;
    var rest := before + after;
    if SomeResultMissing(all, out, key) {
      var i :| 0 <= i < |all| && !Found(out, key, all[i]);
      if i < |before| {
        assert rest[i] == all[i];
      } else {
        assert i > |before| && rest[i - 1] == all[i];
      }
    }
    if SomeResultMissing(rest, out, key) {
      var i :| 0 <= i < |rest| && !Found(out, key, rest[i]);
      if i < |before| {
        assert all[i] == rest[i];
      } else {
        assert all[i + 1] == rest[i];
      }
    }
  }
}
