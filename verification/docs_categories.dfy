/**
 * `categorize_operators`: each operator goes to the first category whose
 * keywords occur in its lower-cased name or label, in a fixed priority
 * order, and to Utilities when none does; empty categories are dropped.
 */
module DocsCategories {
  import opened Text
  import opened PyValue

  const CATEGORY_NAMES: seq<string> :=
    ["Reconstruction", "Alignment", "Filtering", "Segmentation", "Transformation", "Analysis", "Utilities"]

  /** The category of operators no keyword group matches. */
  const UTILITIES: nat := 6

  /** The keyword groups of the first six categories, in priority order. */
  const KEYWORD_GROUPS: seq<seq<string>> := [
    ["recon", "reconstruct"],
    ["align", "register", "shift", "rotation"],
    ["filter", "denoise", "smooth", "median", "gaussian", "noise"],
    ["segment", "threshold", "label"],
    ["crop", "pad", "resample", "bin", "rotate", "swap", "transpose"],
    ["analyze", "measure", "calculate"]
  ]

  /** A category in the order the result dictionary lists it, with its operators in input order. */
  type Category = (string, seq<Value>)

  /** An operator whose name and label, when present, are strings (`.lower()` would raise otherwise). */
  predicate HasTextNames(op: Value)
  {
    && op.Dict?
    && (Has(op, "name") ==> At(op, "name").Str?)
    && (Has(op, "label") ==> At(op, "label").Str?)
  }

  /** `op.get('name', '').lower()` */
  function LowerName(op: Value): string
    requires HasTextNames(op)
  {
    Lower(Get(op, "name", Str("")).s)
  }

  /** `op.get('label', '').lower()` */
  function LowerLabel(op: Value): string
    requires HasTextNames(op)
  {
    Lower(Get(op, "label", Str("")).s)
  }

  /** `any(kw in name or kw in label for kw in group)` */
  predicate MatchesGroup(name: string, labelText: string, group: seq<string>)
  {
    exists k :: 0 <= k < |group| && (Contains(name, group[k]) || Contains(labelText, group[k]))
  }

  /** The index of the category the `if`/`elif` chain picks: the first matching group, else Utilities. */
  function CategoryIndex(name: string, labelText: string): (c: nat)
    ensures c <= UTILITIES
    ensures c < UTILITIES ==> MatchesGroup(name, labelText, KEYWORD_GROUPS[c])
    ensures forall g :: 0 <= g < c ==> !MatchesGroup(name, labelText, KEYWORD_GROUPS[g])
  {
    if MatchesGroup(name, labelText, KEYWORD_GROUPS[0]) then 0
    else if MatchesGroup(name, labelText, KEYWORD_GROUPS[1]) then 1
    else if MatchesGroup(name, labelText, KEYWORD_GROUPS[2]) then 2
    else if MatchesGroup(name, labelText, KEYWORD_GROUPS[3]) then 3
    else if MatchesGroup(name, labelText, KEYWORD_GROUPS[4]) then 4
    else if MatchesGroup(name, labelText, KEYWORD_GROUPS[5]) then 5
    else UTILITIES
  }

  /** The category index of an operator (Utilities for one `categorize_operators` would reject). */
  function CategoryOf(op: Value): (c: nat)
    ensures c <= UTILITIES
  {
    if HasTextNames(op) then CategoryIndex(LowerName(op), LowerLabel(op)) else UTILITIES
  }

  predicate AllTextNames(ops: seq<Value>)
  {
    forall i :: 0 <= i < |ops| ==> HasTextNames(ops[i])
  }

  /** The operators `f` sends to category `c`, in input order. */
  function Select(ops: seq<Value>, f: Value -> nat, c: nat): seq<Value>
  {
    if ops == [] then []
    else Select(ops[..|ops| - 1], f, c) + (if f(ops[|ops| - 1]) == c then [ops[|ops| - 1]] else [])
  }

  /** The operators of category `c`, in input order. */
  function Bucket(ops: seq<Value>, c: nat): seq<Value>
  {
    Select(ops, CategoryOf, c)
  }

  /** All seven categories with their operators, before empty ones are dropped. */
  function Table(ops: seq<Value>): (t: seq<Category>)
    ensures |t| == |CATEGORY_NAMES|
    ensures forall c :: 0 <= c < |t| ==> t[c] == (CATEGORY_NAMES[c], Bucket(ops, c))
  {
    seq(|CATEGORY_NAMES|, c requires 0 <= c < |CATEGORY_NAMES| => (CATEGORY_NAMES[c], Bucket(ops, c)))
  }

  /** `{k: v for k, v in categories.items() if v}` */
  function NonEmpty(cats: seq<Category>): seq<Category>
  {
    if cats == [] then []
    else NonEmpty(cats[..|cats| - 1]) + (if cats[|cats| - 1].1 != [] then [cats[|cats| - 1]] else [])
  }

  /** Dropping the empty categories keeps exactly the non-empty ones. */
  lemma {:induction false} NonEmptyMembers(cats: seq<Category>, e: Category)
    ensures e in NonEmpty(cats) <==> e in cats && e.1 != []
  {
    if cats != [] {
      var init := cats[..|cats| - 1];
      NonEmptyMembers(init, e);
      assert cats == init + [cats[|cats| - 1]];
    }
  }

  /** The dictionary `categorize_operators` returns, as its items in order. */
  function Categorized(ops: seq<Value>): seq<Category>
  {
    NonEmpty(Table(ops))
  }

  /** `categorize_operators(operators)` */
  method Categorize(ops: seq<Value>) returns (categorized: seq<Category>)
    requires AllTextNames(ops)
    ensures categorized == Categorized(ops)
  {
    var categories: seq<seq<Value>> := [[], [], [], [], [], [], []];
    for i := 0 to |ops|
      invariant |categories| == |CATEGORY_NAMES|
      invariant forall c :: 0 <= c < |categories| ==> categories[c] == Bucket(ops[..i], c)
    {
      var op := ops[i];
      var name := Lower(Get(op, "name", Str("")).s);
      var labelText := Lower(Get(op, "label", Str("")).s);
      var categorized := false;
      if MatchesGroup(name, labelText, KEYWORD_GROUPS[0]) {
        categories := categories[0 := categories[0] + [op]];
        categorized := true;
      } else if MatchesGroup(name, labelText, KEYWORD_GROUPS[1]) {
        categories := categories[1 := categories[1] + [op]];
        categorized := true;
      } else if MatchesGroup(name, labelText, KEYWORD_GROUPS[2]) {
        categories := categories[2 := categories[2] + [op]];
        categorized := true;
      } else if MatchesGroup(name, labelText, KEYWORD_GROUPS[3]) {
        categories := categories[3 := categories[3] + [op]];
        categorized := true;
      } else if MatchesGroup(name, labelText, KEYWORD_GROUPS[4]) {
        categories := categories[4 := categories[4] + [op]];
        categorized := true;
      } else if MatchesGroup(name, labelText, KEYWORD_GROUPS[5]) {
        categories := categories[5 := categories[5] + [op]];
        categorized := true;
      }
      if !categorized {
        categories := categories[UTILITIES := categories[UTILITIES] + [op]];
      }
      SelectStep(ops, CategoryOf, i);
    }
    assert ops[..|ops|] == ops;
    categorized := NonEmpty(seq(|CATEGORY_NAMES|, c requires 0 <= c < |CATEGORY_NAMES| => (CATEGORY_NAMES[c], categories[c])));
    assert seq(|CATEGORY_NAMES|, c requires 0 <= c < |CATEGORY_NAMES| => (CATEGORY_NAMES[c], categories[c])) == Table(ops);
  }

  lemma SelectStep(ops: seq<Value>, f: Value -> nat, i: nat)
    requires i < |ops|
    ensures forall c :: Select(ops[..i + 1], f, c)
                     == Select(ops[..i], f, c) + (if f(ops[i]) == c then [ops[i]] else [])
  {
    var pre := ops[..i + 1];
    assert pre[..|pre| - 1] == ops[..i];
    assert pre[|pre| - 1] == ops[i];
  }

  /** Splitting the input splits every category the same way: the input order is kept. */
  lemma {:induction false} SelectAppend(a: seq<Value>, b: seq<Value>, f: Value -> nat, c: nat)
    ensures Select(a + b, f, c) == Select(a, f, c) + Select(b, f, c)
    decreases |b|
  {
    if b != [] {
      var b' := b[..|b| - 1];
      SelectAppend(a, b', f, c);
      assert (a + b)[..|a + b| - 1] == a + b';
      assert (a + b)[|a + b| - 1] == b[|b| - 1];
      AppendAssoc(Select(a, f, c), Select(b', f, c),
                  if f(b[|b| - 1]) == c then [b[|b| - 1]] else []);
    } else {
      assert a + b == a;
    }
  }

  lemma {:induction false} SelectMembers(ops: seq<Value>, f: Value -> nat, c: nat, x: Value)
    ensures x in Select(ops, f, c) <==> x in ops && f(x) == c
  {
    if ops != [] {
      var init := ops[..|ops| - 1];
      SelectMembers(init, f, c, x);
      assert ops == init + [ops[|ops| - 1]];
    }
  }

  /** The number of operators `f` sends to the first `n` categories. */
  function CountUpTo(ops: seq<Value>, f: Value -> nat, n: nat): nat
  {
    if n == 0 then 0 else CountUpTo(ops, f, n - 1) + |Select(ops, f, n - 1)|
  }

  lemma {:induction false} CountUpToStep(ops: seq<Value>, f: Value -> nat, n: nat)
    requires ops != []
    ensures CountUpTo(ops, f, n)
         == CountUpTo(ops[..|ops| - 1], f, n) + (if f(ops[|ops| - 1]) < n then 1 else 0)
  {
    if n > 0 {
      CountUpToStep(ops, f, n - 1);
    }
  }

  lemma {:induction false} CountNone(f: Value -> nat, n: nat)
    ensures CountUpTo([], f, n) == 0
  {
    if n > 0 {
      CountNone(f, n - 1);
    }
  }

  /** When `f` maps into the first `n` categories, they hold every operator once. */
  lemma {:induction false} CountAll(ops: seq<Value>, f: Value -> nat, n: nat)
    requires forall x :: f(x) < n
    ensures CountUpTo(ops, f, n) == |ops|
  {
    if ops != [] {
      CountAll(ops[..|ops| - 1], f, n);
      CountUpToStep(ops, f, n);
      assert f(ops[|ops| - 1]) < n;
    } else {
      CountNone(f, n);
    }
  }

  /** The number of operators in a list of categories. */
  function TotalSize(cats: seq<Category>): nat
  {
    if cats == [] then 0 else TotalSize(cats[..|cats| - 1]) + |cats[|cats| - 1].1|
  }

  lemma {:induction false} TotalSizeNonEmpty(cats: seq<Category>)
    ensures TotalSize(NonEmpty(cats)) == TotalSize(cats)
  {
    if cats != [] {
      var init := cats[..|cats| - 1];
      TotalSizeNonEmpty(init);
      var last := cats[|cats| - 1];
      if last.1 != [] {
        var r := NonEmpty(init) + [last];
        assert r[..|r| - 1] == NonEmpty(init);
        assert TotalSize(r) == TotalSize(NonEmpty(init)) + |last.1|;
      } else {
        assert NonEmpty(cats) == NonEmpty(init) + [];
        assert NonEmpty(init) + [] == NonEmpty(init);
      }
    }
  }

  lemma {:induction false} TotalSizeTable(ops: seq<Value>, n: nat)
    requires n <= |CATEGORY_NAMES|
    ensures TotalSize(Table(ops)[..n]) == CountUpTo(ops, CategoryOf, n)
  {
    if n > 0 {
      TotalSizeTable(ops, n - 1);
      var t := Table(ops)[..n];
      assert t[..|t| - 1] == Table(ops)[..n - 1];
    }
  }

  /** Splitting the input splits every category the same way: the input order is kept. */
  lemma BucketAppend(a: seq<Value>, b: seq<Value>, c: nat)
    ensures Bucket(a + b, c) == Bucket(a, c) + Bucket(b, c)
  {
    SelectAppend(a, b, CategoryOf, c);
  }

  /** An operator is in category `c` exactly when it is an input operator whose category is `c`. */
  lemma BucketMembers(ops: seq<Value>, c: nat, x: Value)
    ensures x in Bucket(ops, c) <==> x in ops && CategoryOf(x) == c
  {
    SelectMembers(ops, CategoryOf, c, x);
  }

  /** Each of the seven lists holds exactly the operators whose category it is. */
  lemma TableMembers(ops: seq<Value>)
    ensures forall c, x :: 0 <= c < |Table(ops)| ==> (x in Table(ops)[c].1 <==> x in ops && CategoryOf(x) == c)
  {
    forall c, x | 0 <= c < |Table(ops)|
      ensures x in Table(ops)[c].1 <==> x in ops && CategoryOf(x) == c
    {
      BucketMembers(ops, c, x);
    }
  }

  /** The category sizes add up to the number of operators: the categories partition the input. */
  lemma CategorizedPartition(ops: seq<Value>)
    ensures TotalSize(Categorized(ops)) == |ops|
  {
    TotalSizeNonEmpty(Table(ops));
    TotalSizeTable(ops, |CATEGORY_NAMES|);
    assert Table(ops)[..|CATEGORY_NAMES|] == Table(ops);
    CountAll(ops, CategoryOf, |CATEGORY_NAMES|);
  }

  /** Category `c` is listed, with its operators, exactly when it is not empty. */
  lemma CategorizedListsNonEmpty(ops: seq<Value>, c: nat)
    requires c < |CATEGORY_NAMES|
    ensures (CATEGORY_NAMES[c], Bucket(ops, c)) in Categorized(ops) <==> Bucket(ops, c) != []
  {
    assert Table(ops)[c] == (CATEGORY_NAMES[c], Bucket(ops, c));
    NonEmptyMembers(Table(ops), (CATEGORY_NAMES[c], Bucket(ops, c)));
  }
}
