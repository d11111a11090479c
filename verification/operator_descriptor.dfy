/**
 * What OperatorPython::setJSONDescription reads out of a parsed operator
 * descriptor (tomviz/OperatorPython.cxx): the label, the result slots and
 * result names, and the child data source declaration.
 *
 * These are the specification functions the class method is proved against,
 * with the lemmas that say what they mean.
 */
module OperatorDescriptor {
  import opened JsonTree

  /** One output slot of the operator (an OperatorResult): its name and its label. */
  datatype ResultSlot = ResultSlot(name: string, labelText: string)

  /** A `results` entry contributes a name exactly when its `name` member is non-null. */
  predicate IsNamed(entry: Json)
  {
    !Member(entry, "name").JNull?
  }

  /** The name a named entry contributes. */
  function NameOf(entry: Json): string
  {
    AsString(Member(entry, "name"))
  }

  /** The result names declared by the entries, in array order (the loop's appends). */
  function DeclaredNames(entries: seq<Json>): seq<string>
  {
    if entries == [] then []
    else
      var last := entries[|entries| - 1];
      DeclaredNames(entries[..|entries| - 1]) + (if IsNamed(last) then [NameOf(last)] else [])
  }

  /** Declaring the entries of `a` then those of `b` gives the names of `a` then those of `b`. */
  lemma {:induction false} DeclaredNamesAppend(a: seq<Json>, b: seq<Json>)
    ensures DeclaredNames(a + b) == DeclaredNames(a) + DeclaredNames(b)
    decreases |b|
  {
    if b == [] {
      assert a + b == a;
    } else {
      var b' := b[..|b| - 1];
      assert (a + b)[..|a + b| - 1] == a + b';
      assert (a + b)[|a + b| - 1] == b[|b| - 1];
      DeclaredNamesAppend(a, b');
    }
  }

  /** Every declared name is the `name` of some named entry. */
  lemma {:induction false} DeclaredNamesSound(entries: seq<Json>, k: nat)
    requires k < |DeclaredNames(entries)|
    ensures exists i :: 0 <= i < |entries| && IsNamed(entries[i]) && DeclaredNames(entries)[k] == NameOf(entries[i])
  {
    var init := entries[..|entries| - 1];
    var last := entries[|entries| - 1];
    if k < |DeclaredNames(init)| {
      DeclaredNamesSound(init, k);
      var i :| 0 <= i < |init| && IsNamed(init[i]) && DeclaredNames(init)[k] == NameOf(init[i]);
      assert entries[i] == init[i];
    } else {
      assert IsNamed(last) && DeclaredNames(entries)[k] == NameOf(last);
    }
  }

  /** Every named entry's `name` is declared. */
  lemma {:induction false} DeclaredNamesComplete(entries: seq<Json>, i: nat)
    requires i < |entries| && IsNamed(entries[i])
    ensures NameOf(entries[i]) in DeclaredNames(entries)
  {
    var init := entries[..|entries| - 1];
    if i < |init| {
      assert init[i] == entries[i];
      DeclaredNamesComplete(init, i);
    }
  }

  /** When every entry is named, the declared names are the entries' names one for one. */
  lemma {:induction false} DeclaredNamesAllNamed(entries: seq<Json>)
    requires forall i :: 0 <= i < |entries| ==> IsNamed(entries[i])
    ensures |DeclaredNames(entries)| == |entries|
    ensures forall i :: 0 <= i < |entries| ==> DeclaredNames(entries)[i] == NameOf(entries[i])
  {
    if entries != [] {
      var init := entries[..|entries| - 1];
      assert forall i :: 0 <= i < |init| ==> init[i] == entries[i];
      DeclaredNamesAllNamed(init);
    }
  }

  /** There are never more names than entries. */
  lemma {:induction false} DeclaredNamesBound(entries: seq<Json>)
    ensures |DeclaredNames(entries)| <= |entries|
  {
    if entries != [] {
      DeclaredNamesBound(entries[..|entries| - 1]);
    }
  }

  /**
   * Operator::setNumberOfResults(n), which lives in Operator.cxx (not part of
   * this model): the first n existing slots are kept and blank ones are added.
   */
  function Resized(slots: seq<ResultSlot>, n: nat): (r: seq<ResultSlot>)
    ensures |r| == n
    ensures forall i :: 0 <= i < n && i < |slots| ==> r[i] == slots[i]
    ensures forall i :: |slots| <= i < n ==> r[i] == ResultSlot("", "")
  {
    if n <= |slots| then slots[..n] else slots + seq(n - |slots|, _ => ResultSlot("", ""))
  }

  /** One iteration of the results loop on its slot: a non-null name or label overwrites the old one. */
  function Configured(slot: ResultSlot, entry: Json): ResultSlot
  {
    var name := Member(entry, "name");
    var labelNode := Member(entry, "label");
    ResultSlot(if name.JNull? then slot.name else AsString(name),
               if labelNode.JNull? then slot.labelText else AsString(labelNode))
  }

  /** The slots after the results loop has run over every entry. */
  function ConfiguredSlots(slots: seq<ResultSlot>, entries: seq<Json>): (r: seq<ResultSlot>)
    ensures |r| == |entries|
    ensures forall i :: 0 <= i < |entries| && IsNamed(entries[i]) ==> r[i].name == NameOf(entries[i])
  {
    var resized := Resized(slots, |entries|);
    seq(|entries|, i requires 0 <= i < |entries| => Configured(resized[i], entries[i]))
  }

  /** The label after a successful parse: the descriptor's when its `label` is non-null. */
  function DescribedLabel(root: Json, current: string): (r: string)
    ensures Member(root, "label").JNull? ==> r == current
    ensures Member(root, "label").JStr? ==> r == Member(root, "label").s
  {
    var node := Member(root, "label");
    if node.JNull? then current else AsString(node)
  }

  /** The result slots after a successful parse; untouched when `results` is null. */
  function DescribedSlots(root: Json, slots: seq<ResultSlot>): seq<ResultSlot>
  {
    var results := Member(root, "results");
    if results.JNull? then slots else ConfiguredSlots(slots, Elements(results))
  }

  /** The result names after a successful parse (the old ones are always cleared). */
  function DescribedNames(root: Json): seq<string>
  {
    DeclaredNames(Elements(Member(root, "results")))
  }

  /** Entry 0 of a `children` node exists and has both a non-null name and a non-null label. */
  predicate FirstChildComplete(children: Json)
  {
    |Elements(children)| > 0 && IsNamed(Elements(children)[0])
    && !Member(Elements(children)[0], "label").JNull?
  }

  /**
   * The child declarations recorded from a `children` node: only entry 0 is
   * read, and its (name, label) pair is kept only when both are non-null.
   */
  function DeclaredChild(children: Json): (r: seq<(string, string)>)
    ensures |r| <= 1
    ensures r != [] <==> FirstChildComplete(children)
    ensures r != [] ==> r[0] == (NameOf(Elements(children)[0]), AsString(Member(Elements(children)[0], "label")))
  {
    var first := At(children, 0);
    var name := Member(first, "name");
    var labelNode := Member(first, "label");
    if |Elements(children)| > 0 && !name.JNull? && !labelNode.JNull? then [(AsString(name), AsString(labelNode))] else []
  }

  /** Entries after the first do not matter. */
  lemma DeclaredChildIgnoresRest(first: Json, rest: seq<Json>)
    ensures DeclaredChild(JArr([first] + rest)) == DeclaredChild(JArr([first]))
  {
  }

  /** The child declarations after a successful parse (the old ones are always cleared). */
  function DescribedChildren(root: Json): seq<(string, string)>
  {
    DeclaredChild(Member(root, "children"))
  }

  /** Whether the descriptor makes the operator announce a child data source. */
  predicate DescribesChild(root: Json)
  {
    |Elements(Member(root, "children"))| > 0
  }
}
