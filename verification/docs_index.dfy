/**
 * `generate_all_docs` without the file system: the index page (totals,
 * category summary and toctree), one page per category with its operators
 * sorted by label, and the rewrite `update_main_index` applies to the main
 * documentation index.
 */
module DocsIndex {
  import opened Wrappers
  import opened Text
  import opened PyValue
  import opened StableSort
  import opened OperatorMarkdown
  import opened DocsCategories

  /** An operator descriptor the whole generator can process without raising. */
  predicate IsDescriptor(op: Value)
  {
    IsRenderable(op) && HasTextNames(op)
  }

  predicate AllRenderable(ops: seq<Value>)
  {
    forall i :: 0 <= i < |ops| ==> IsRenderable(ops[i])
  }

  /** `category.lower().replace(' ', '_')` */
  function Slug(category: string): string
  {
    ReplaceAll(Lower(category), " ", "_")
  }

  /** The sort key of an operator on its category page: label, else name, else "". */
  function SortKey(op: Value): string
  {
    var v := Get(op, "label", Get(op, "name", Str("")));
    if v.Str? then v.s else ""
  }

  function CategoryKey(e: Category): string
  {
    e.0
  }

  function Identity(s: string): string
  {
    s
  }

  /** `categorized.keys()` */
  function Keys(cats: seq<Category>): (r: seq<string>)
    ensures |r| == |cats| && forall i :: 0 <= i < |cats| ==> r[i] == cats[i].0
  {
    seq(|cats|, i requires 0 <= i < |cats| => cats[i].0)
  }

  const INTRO: string :=
    "This section documents all available operators in tomviz. Operators are Python scripts that "
    + "process tomographic data through various transformations, reconstructions, and analyses."

  function SummaryLine(e: Category): string
  {
    "- **" + e.0 + "**: " + IntText(|e.1|) + " operator(s)"
  }

  function SummaryLines(cats: seq<Category>): seq<string>
  {
    if cats == [] then []
    else SummaryLines(cats[..|cats| - 1]) + [SummaryLine(cats[|cats| - 1])]
  }

  /** One toctree entry, the slug, per category name. */
  function TocLines(names: seq<string>): seq<string>
  {
    if names == [] then []
    else TocLines(names[..|names| - 1]) + [Slug(names[|names| - 1])]
  }

  /** The toctree entries of the index page: the slugs of the sorted category names. */
  function TocEntries(cats: seq<Category>): seq<string>
  {
    TocLines(SortBy(Keys(cats), Identity))
  }

  function IndexHeader(total: nat): seq<string>
  {
    ["# Operators Reference", "", INTRO, "", "**Total operators:** " + IntText(total), "",
     "## Categories", ""]
  }

  /** The lines of `index.md`. */
  function IndexLines(total: nat, cats: seq<Category>): seq<string>
  {
    IndexHeader(total)
    + SummaryLines(SortBy(cats, CategoryKey))
    + [""]
    + ["```{toctree}", "---", "maxdepth: 2", "---"]
    + TocEntries(cats)
    + ["```"]
  }

  function MarkdownTexts(ops: seq<Value>): seq<string>
    requires AllRenderable(ops)
  {
    if ops == [] then []
    else MarkdownTexts(ops[..|ops| - 1]) + [Lines(MarkdownLines(ops[|ops| - 1]))]
  }

  /** The operators are rearranged, never lost or added, by the sort on the page. */
  lemma SortedRenderable(ops: seq<Value>)
    requires AllRenderable(ops)
    ensures AllRenderable(SortBy(ops, SortKey))
  {
    SortByCorrect(ops, SortKey);
    var s := SortBy(ops, SortKey);
    forall i | 0 <= i < |s|
      ensures IsRenderable(s[i])
    {
      assert s[i] in multiset(s);
      assert s[i] in multiset(ops);
    }
  }

  function PageHeader(e: Category): seq<string>
  {
    ["# " + e.0, "", "This category contains " + IntText(|e.1|) + " operator(s).", ""]
  }

  /** The lines of one category page: a header, then the operators sorted by label. */
  function PageLines(e: Category): seq<string>
    requires AllRenderable(e.1)
  {
    SortedRenderable(e.1);
    PageHeader(e) + MarkdownTexts(SortBy(e.1, SortKey))
  }

  predicate AllPagesRenderable(cats: seq<Category>)
  {
    forall i :: 0 <= i < |cats| ==> AllRenderable(cats[i].1)
  }

  function Page(e: Category): (string, string)
    requires AllRenderable(e.1)
  {
    (Slug(e.0) + ".md", Lines(PageLines(e)))
  }

  function Pages(cats: seq<Category>): seq<(string, string)>
    requires AllPagesRenderable(cats)
  {
    if cats == [] then []
    else Pages(cats[..|cats| - 1]) + [Page(cats[|cats| - 1])]
  }

  predicate AllDescriptors(ops: seq<Value>)
  {
    forall i :: 0 <= i < |ops| ==> IsDescriptor(ops[i])
  }

  /** Every category of descriptors holds descriptors only. */
  lemma CategorizedRenderable(ops: seq<Value>)
    requires AllDescriptors(ops)
    ensures AllPagesRenderable(Categorized(ops))
  {
    var cats := Categorized(ops);
    forall i, j | 0 <= i < |cats| && 0 <= j < |cats[i].1|
      ensures IsRenderable(cats[i].1[j])
    {
      NonEmptyMembers(Table(ops), cats[i]);
      var c :| 0 <= c < |Table(ops)| && Table(ops)[c] == cats[i];
      BucketMembers(ops, c, cats[i].1[j]);
    }
  }

  /** The files `generate_all_docs` writes: `index.md`, then one page per category in dictionary order. */
  function AllDocs(ops: seq<Value>): seq<(string, string)>
    requires AllDescriptors(ops)
  {
    CategorizedRenderable(ops);
    [("index.md", Lines(IndexLines(|ops|, Categorized(ops))))] + Pages(Categorized(ops))
  }

  /** `generate_all_docs(operators, output_dir)`, returning the files instead of writing them. */
  method GenerateAllDocs(operators: seq<Value>) returns (files: seq<(string, string)>)
    requires AllDescriptors(operators)
    ensures files == AllDocs(operators)
  {
    assert AllTextNames(operators);
    var categorized := Categorize(operators);
    var indexLines := IndexLineList(|operators|, categorized);
    files := [("index.md", Lines(indexLines))];
    CategorizedRenderable(operators);
    ghost var first := files;
    ghost var pages: seq<(string, string)> := [];
    for i := 0 to |categorized|
      invariant files == first + pages
      invariant pages == Pages(categorized[..i])
    {
      var page := CategoryPage(categorized[i]);
      PagesStep(categorized, i);
      AppendAssoc(first, pages, [page]);
      files := files + [page];
      pages := pages + [page];
    }
    assert categorized[..|categorized|] == categorized;
  }

  lemma PagesStep(cats: seq<Category>, i: nat)
    requires AllPagesRenderable(cats) && i < |cats|
    ensures AllPagesRenderable(cats[..i]) && AllPagesRenderable(cats[..i + 1])
    ensures Pages(cats[..i + 1]) == Pages(cats[..i]) + [Page(cats[i])]
  {
    var pre := cats[..i + 1];
    assert AllPagesRenderable(pre) && AllPagesRenderable(cats[..i]);
    assert pre[..|pre| - 1] == cats[..i];
    assert pre[|pre| - 1] == cats[i];
    assert Pages(pre) == Pages(pre[..|pre| - 1]) + [Page(pre[|pre| - 1])];
  }

  /** The index page: the header, a loop over the sorted categories, then a loop over the sorted names. */
  method IndexLineList(total: nat, categorized: seq<Category>) returns (indexLines: seq<string>)
    ensures indexLines == IndexLines(total, categorized)
  {
    indexLines := [];
    indexLines := indexLines + ["# Operators Reference", "", INTRO, ""];
    indexLines := indexLines + ["**Total operators:** " + IntText(total), ""];
    indexLines := indexLines + ["## Categories", ""];
    ghost var spec := IndexHeader(total);
    assert indexLines == spec;
    var items := SortBy(categorized, CategoryKey);
    ghost var summary: seq<string> := [];
    for i := 0 to |items|
      invariant indexLines == spec + summary
      invariant summary == SummaryLines(items[..i])
    {
      var line := "- **" + items[i].0 + "**: " + IntText(|items[i].1|) + " operator(s)";
      SummaryLinesStep(items, i);
      AppendAssoc(spec, summary, [line]);
      indexLines := indexLines + [line];
      summary := summary + [line];
    }
    assert items[..|items|] == items;
    spec := spec + SummaryLines(items);
    indexLines := indexLines + [""];
    spec := spec + [""];
    indexLines := indexLines + ["```{toctree}", "---", "maxdepth: 2", "---"];
    spec := spec + ["```{toctree}", "---", "maxdepth: 2", "---"];
    var names := SortBy(Keys(categorized), Identity);
    ghost var beforeToc := indexLines;
    ghost var toc: seq<string> := [];
    for i := 0 to |names|
      invariant indexLines == beforeToc + toc
      invariant toc == TocLines(names[..i])
    {
      var categorySlug := ReplaceAll(Lower(names[i]), " ", "_");
      TocLinesStep(names, i);
      AppendAssoc(beforeToc, toc, [categorySlug]);
      indexLines := indexLines + [categorySlug];
      toc := toc + [categorySlug];
    }
    assert names[..|names|] == names;
    spec := spec + TocEntries(categorized);
    indexLines := indexLines + ["```"];
    spec := spec + ["```"];
    assert indexLines == spec;
  }

  lemma SummaryLinesStep(cats: seq<Category>, i: nat)
    requires i < |cats|
    ensures SummaryLines(cats[..i + 1]) == SummaryLines(cats[..i]) + [SummaryLine(cats[i])]
  {
    var pre := cats[..i + 1];
    assert pre[..|pre| - 1] == cats[..i];
    assert pre[|pre| - 1] == cats[i];
  }

  lemma TocLinesStep(names: seq<string>, i: nat)
    requires i < |names|
    ensures TocLines(names[..i + 1]) == TocLines(names[..i]) + [Slug(names[i])]
  {
    var pre := names[..i + 1];
    assert pre[..|pre| - 1] == names[..i];
    assert pre[|pre| - 1] == names[i];
  }

  lemma MarkdownTextsStep(ops: seq<Value>, i: nat)
    requires AllRenderable(ops) && i < |ops|
    ensures AllRenderable(ops[..i]) && AllRenderable(ops[..i + 1])
    ensures MarkdownTexts(ops[..i + 1]) == MarkdownTexts(ops[..i]) + [Lines(MarkdownLines(ops[i]))]
  {
    var pre := ops[..i + 1];
    assert pre[..|pre| - 1] == ops[..i];
    assert pre[|pre| - 1] == ops[i];
  }

  /** One category page: its header, then each operator's section in label order. */
  method CategoryPage(e: Category) returns (page: (string, string))
    requires AllRenderable(e.1)
    ensures page == Page(e)
  {
    var (category, ops) := e;
    var categorySlug := ReplaceAll(Lower(category), " ", "_");
    var categoryLines: seq<string> := [];
    categoryLines := categoryLines + ["# " + category, ""];
    categoryLines := categoryLines + ["This category contains " + IntText(|ops|) + " operator(s).", ""];
    assert categoryLines == PageHeader(e);
    var sorted := SortBy(ops, SortKey);
    SortedRenderable(ops);
    ghost var texts: seq<string> := [];
    for i := 0 to |sorted|
      invariant categoryLines == PageHeader(e) + texts
      invariant texts == MarkdownTexts(sorted[..i])
    {
      var text := GenerateOperatorMarkdown(sorted[i]);
      MarkdownTextsStep(sorted, i);
      AppendAssoc(PageHeader(e), texts, [text]);
      categoryLines := categoryLines + [text];
      texts := texts + [text];
    }
    assert sorted[..|sorted|] == sorted;
    page := (categorySlug + ".md", Lines(categoryLines));
  }

  /** The slugs of a list of names are exactly the slugs of its members. */
  lemma {:induction false} TocLinesMembers(names: seq<string>, t: string)
    ensures t in TocLines(names) <==> exists n :: n in names && Slug(n) == t
  {
    if names != [] {
      var init := names[..|names| - 1];
      TocLinesMembers(init, t);
      assert names == init + [names[|names| - 1]];
    }
  }

  /**
   * The toctree of the index lists exactly the category pages written: each
   * entry is the slug of a listed category, and each listed category's slug
   * is an entry.
   */
  lemma TocMatchesPages(cats: seq<Category>, t: string)
    ensures t in TocEntries(cats) <==> exists i :: 0 <= i < |cats| && Slug(cats[i].0) == t
  {
    var keys := Keys(cats);
    var sorted := SortBy(keys, Identity);
    SortByCorrect(keys, Identity);
    TocLinesMembers(sorted, t);
    if t in TocEntries(cats) {
      var n :| n in sorted && Slug(n) == t;
      assert n in multiset(sorted);
      assert n in keys;
      var i :| 0 <= i < |keys| && keys[i] == n;
      assert Slug(cats[i].0) == t;
    }
    if exists i :: 0 <= i < |cats| && Slug(cats[i].0) == t {
      var i :| 0 <= i < |cats| && Slug(cats[i].0) == t;
      assert keys[i] in multiset(keys);
      assert keys[i] in sorted;
    }
  }

  /** The page of a category lists its operators sorted by label, equal labels in input order. */
  lemma PageOrder(e: Category, k: string)
    ensures SortedBy(SortBy(e.1, SortKey), SortKey)
    ensures multiset(SortBy(e.1, SortKey)) == multiset(e.1)
    ensures WithKey(SortBy(e.1, SortKey), SortKey, k) == WithKey(e.1, SortKey, k)
  {
    SortByCorrect(e.1, SortKey);
    SortByStable(e.1, SortKey, k);
  }

  const MARKER: string := "api/modules"
  const ENTRY: string := "operators/index"
  /** The marker followed, on the next line, by the operators entry. */
  const REPLACEMENT: string := MARKER + "\n" + ENTRY

  /**
   * The content `update_main_index` writes back, or None when it leaves the
   * file alone: the operators entry is already there, or the toctree marker
   * is missing.
   */
  function UpdatedIndex(content: string): (r: Option<string>)
    ensures Contains(content, ENTRY) ==> r.None?
    ensures !Contains(content, MARKER) ==> r.None?
    ensures r.Some? ==> Contains(r.value, ENTRY)
  {
    if Contains(content, ENTRY) then None
    else if Contains(content, MARKER) then
      ReplaceAllInserts(content, MARKER, REPLACEMENT);
      ContainsSuffixOf(ReplaceAll(content, MARKER, REPLACEMENT), MARKER + "\n", ENTRY);
      Some(ReplaceAll(content, MARKER, REPLACEMENT))
    else None
  }

  /** Updating twice writes once: the rewritten index is left alone by a second run. */
  lemma UpdateIdempotent(content: string)
    requires UpdatedIndex(content).Some?
    ensures UpdatedIndex(UpdatedIndex(content).value).None?
  {
  }

  /**
   * The first marker gains the operators entry on the line after it; the
   * text before it is unchanged and the rest is rewritten the same way.
   */
  lemma UpdateFirstMarker(pre: string, post: string)
    requires !Contains(pre + MARKER + post, ENTRY)
    requires forall i :: 0 <= i < |pre| ==> !OccursAt(pre + MARKER + post, MARKER, i)
    ensures UpdatedIndex(pre + MARKER + post) == Some(pre + REPLACEMENT + ReplaceAll(post, MARKER, REPLACEMENT))
  {
    var content := pre + MARKER + post;
    OccursAfter(pre, MARKER, post);
    OccurrenceContains(content, MARKER, |pre|);
    ReplaceAllFirst(pre, MARKER, post, REPLACEMENT);
  }
}
