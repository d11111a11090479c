/**
 * The search for a transform function header in an operator script:
 * the regular expression `def (transform(?:_scalars)?)\s*\((.*?)\):`
 * applied with `re.search` and DOTALL, followed by the clean-up of the
 * captured parameter text (`re.sub(r'\s+', ' ', ...)` then `strip()`),
 * written as a direct scanner.
 */
module SignatureScanner {
  import opened Wrappers
  import opened Text

  /** A header the pattern matched: the function name and the raw parameter text. */
  datatype Header = Header(name: string, params: string)

  /** The first position at or after `k` that is not whitespace (the greedy `\s*`). */
  function SkipSpaces(s: string, k: nat): (r: nat)
    requires k <= |s|
    ensures k <= r <= |s|
    ensures forall j :: k <= j < r ==> IsSpace(s[j])
    ensures r == |s| || !IsSpace(s[r])
    decreases |s| - k
  {
    if k < |s| && IsSpace(s[k]) then SkipSpaces(s, k + 1) else k
  }

  /** The text `):` starts at position `j`. */
  predicate ClosesAt(s: string, j: nat)
  {
    j + 2 <= |s| && s[j] == ')' && s[j + 1] == ':'
  }

  /** The lazy `(.*?)\):`: the first `):` at or after `k`. */
  function FindClose(s: string, k: nat): (r: Option<nat>)
    requires k <= |s|
    ensures r.Some? ==> k <= r.value && ClosesAt(s, r.value)
    ensures r.Some? ==> forall j: nat :: k <= j < r.value ==> !ClosesAt(s, j)
    ensures r.None? ==> forall j: nat :: k <= j ==> !ClosesAt(s, j)
    decreases |s| - k
  {
    if k + 2 > |s| then None
    else if ClosesAt(s, k) then Some(k)
    else FindClose(s, k + 1)
  }

  /** The pattern with the name alternative fixed to `name`, anchored at position `i`. */
  function MatchWith(s: string, i: nat, name: string): Option<Header>
  {
    var head := "def " + name;
    if i + |head| <= |s| && s[i..i + |head|] == head then
      var k := SkipSpaces(s, i + |head|);
      if k < |s| && s[k] == '(' then
        match FindClose(s, k + 1)
        case Some(j) => Some(Header(name, s[k + 1..j]))
        case None => None
      else None
    else None
  }

  /**
   * The pattern anchored at position `i`: the optional `_scalars` is greedy,
   * so the longer name is tried first and the shorter one on backtracking.
   */
  function MatchAt(s: string, i: nat): (r: Option<Header>)
    ensures r.Some? ==> r.value.name == "transform" || r.value.name == "transform_scalars"
  {
    var m := MatchWith(s, i, "transform_scalars");
    if m.Some? then m else MatchWith(s, i, "transform")
  }

  /** `re.search` from position `i`: the leftmost position where the pattern matches. */
  function Search(s: string, i: nat): (r: Option<(nat, Header)>)
    ensures r.Some? ==> i <= r.value.0 && MatchAt(s, r.value.0) == Some(r.value.1)
    ensures r.Some? ==> forall j: nat :: i <= j < r.value.0 ==> MatchAt(s, j).None?
    ensures r.None? ==> forall j: nat :: i <= j ==> MatchAt(s, j).None?
    decreases |s| + 1 - i
  {
    if i > |s| then
      assert forall j: nat :: i <= j ==> MatchAt(s, j).None? by {
        forall j: nat | i <= j ensures MatchAt(s, j).None? {
          assert j > |s|;
        }
      }
      None
    else if MatchAt(s, i).Some? then Some((i, MatchAt(s, i).value))
    else Search(s, i + 1)
  }

  /** The leading run of whitespace removed. */
  function DropSpaces(s: string): (r: string)
    ensures |r| <= |s| && r == s[|s| - |r|..]
    ensures r == [] || !IsSpace(r[0])
    ensures forall j :: 0 <= j < |s| - |r| ==> IsSpace(s[j])
    ensures s != [] && IsSpace(s[0]) ==> |r| < |s|
  {
    if s != [] && IsSpace(s[0]) then DropSpaces(s[1..]) else s
  }

  /** The trailing run of whitespace removed. */
  function DropTrailingSpaces(s: string): (r: string)
    ensures |r| <= |s| && r == s[..|r|]
    ensures r == [] || !IsSpace(r[|r| - 1])
    ensures forall j :: |r| <= j < |s| ==> IsSpace(s[j])
  {
    if s != [] && IsSpace(s[|s| - 1]) then DropTrailingSpaces(s[..|s| - 1]) else s
  }

  /** `s.strip()` */
  function Strip(s: string): string
  {
    DropTrailingSpaces(DropSpaces(s))
  }

  /** `re.sub(r'\s+', ' ', s)`: each maximal run of whitespace becomes one space. */
  function Collapse(s: string): (r: string)
    ensures r == [] <==> s == []
    ensures r != [] ==> (IsSpace(r[0]) <==> IsSpace(s[0]))
    ensures forall j :: 0 <= j < |r| && IsSpace(r[j]) ==> r[j] == ' '
    ensures forall j :: 0 <= j < |r| - 1 ==> !(r[j] == ' ' && r[j + 1] == ' ')
    decreases |s|
  {
    if s == [] then []
    else if IsSpace(s[0]) then " " + Collapse(DropSpaces(s))
    else [s[0]] + Collapse(s[1..])
  }

  /** Every character of `w` is whitespace. */
  predicate AllSpaces(w: string)
  {
    forall j :: 0 <= j < |w| ==> IsSpace(w[j])
  }

  /** Leading whitespace ends at or before the last non-whitespace character, so what follows is kept. */
  lemma {:induction false} DropSpacesAppend(x: string, y: string)
    requires x != [] && !IsSpace(x[|x| - 1])
    ensures DropSpaces(x + y) == DropSpaces(x) + y
    decreases |x|
  {
    if IsSpace(x[0]) {
      assert (x + y)[1..] == x[1..] + y;
      DropSpacesAppend(x[1..], y);
    }
  }

  /** A whitespace run in front of text that starts with non-whitespace is dropped whole. */
  lemma {:induction false} DropAllSpaces(w: string, b: string)
    requires AllSpaces(w) && (b == [] || !IsSpace(b[0]))
    ensures DropSpaces(w + b) == b
    decreases |w|
  {
    if w == [] {
      assert w + b == b;
    } else {
      assert (w + b)[1..] == w[1..] + b;
      DropAllSpaces(w[1..], b);
    }
  }

  /**
   * A whitespace run between two stretches that do not border it with
   * whitespace of their own becomes exactly one space, and each stretch is
   * collapsed on its own.
   */
  lemma {:induction false} CollapseRun(a: string, w: string, b: string)
    requires w != [] && AllSpaces(w)
    requires a == [] || !IsSpace(a[|a| - 1])
    requires b == [] || !IsSpace(b[0])
    ensures Collapse(a + w + b) == Collapse(a) + " " + Collapse(b)
    decreases |a|
  {
    if a == [] {
      CollapseRunFront(w, b);
      AppendAssoc(a, w, b);
      EmptyFront(a, w + b);
    } else if IsSpace(a[0]) {
      var d := DropSpaces(a);
      CollapseRunSpace(a, d, w + b);
      CollapseRun(d, w, b);
      AppendAssoc(a, w, b);
      AppendAssoc(d, w, b);
      JoinRegroup(" ", Collapse(d), Collapse(b));
    } else {
      CollapseRunWord(a, w + b);
      CollapseRun(a[1..], w, b);
      AppendAssoc(a, w, b);
      AppendAssoc(a[1..], w, b);
      JoinRegroup([a[0]], Collapse(a[1..]), Collapse(b));
    }
  }

  lemma EmptyFront(a: string, x: string)
    requires a == []
    ensures a + x == x
  {
  }

  lemma JoinRegroup(p: string, x: string, y: string)
    ensures p + (x + " " + y) == (p + x) + " " + y
  {
  }

  /** Text opening with a non-whitespace character keeps it and collapses the rest, whatever follows. */
  lemma CollapseRunWord(a: string, rest: string)
    requires a != [] && !IsSpace(a[0])
    ensures Collapse(a + rest) == [a[0]] + Collapse(a[1..] + rest)
    ensures Collapse(a) == [a[0]] + Collapse(a[1..])
  {
    assert (a + rest)[1..] == a[1..] + rest;
    assert (a + rest)[0] == a[0];
  }

  /** The run at the very front becomes one space. */
  lemma CollapseRunFront(w: string, b: string)
    requires w != [] && AllSpaces(w)
    requires b == [] || !IsSpace(b[0])
    ensures Collapse(w + b) == " " + Collapse(b)
  {
    DropAllSpaces(w, b);
    assert (w + b)[0] == w[0];
  }

  /** Text opening with whitespace collapses to a space and the rest, whatever follows its last character. */
  lemma CollapseRunSpace(a: string, d: string, rest: string)
    requires a != [] && IsSpace(a[0]) && !IsSpace(a[|a| - 1]) && d == DropSpaces(a)
    ensures d != [] && !IsSpace(d[|d| - 1]) && |d| < |a|
    ensures Collapse(a + rest) == " " + Collapse(d + rest)
    ensures Collapse(a) == " " + Collapse(d)
  {
    DropSpacesAppend(a, rest);
    assert d[|d| - 1] == a[|a| - 1];
    assert (a + rest)[0] == a[0];
  }

  /** Collapsing keeps whether the text ends in whitespace. */
  lemma {:induction false} CollapseLast(s: string)
    requires s != []
    ensures Collapse(s) != [] && (IsSpace(Collapse(s)[|Collapse(s)| - 1]) <==> IsSpace(s[|s| - 1]))
    decreases |s|
  {
    if IsSpace(s[0]) {
      var d := DropSpaces(s);
      if d != [] {
        CollapseLast(d);
        assert d[|d| - 1] == s[|s| - 1];
      } else {
        assert IsSpace(s[|s| - 1]);
      }
    } else if |s| > 1 {
      CollapseLast(s[1..]);
    }
  }

  /** Text that neither starts nor ends with whitespace is its own `strip()`. */
  lemma StripKeeps(s: string)
    requires s != [] && !IsSpace(s[0]) && !IsSpace(s[|s| - 1])
    ensures Strip(s) == s
  {
  }

  /** Two stretches with whitespace between them come out cleaned and joined by exactly one space. */
  lemma CleanJoin(a: string, w: string, b: string)
    requires w != [] && AllSpaces(w)
    requires a != [] && !IsSpace(a[0]) && !IsSpace(a[|a| - 1])
    requires b != [] && !IsSpace(b[0]) && !IsSpace(b[|b| - 1])
    ensures Clean(a + w + b) == Clean(a) + " " + Clean(b)
  {
    CollapseRun(a, w, b);
    var ca, cb := Collapse(a), Collapse(b);
    CollapseLast(a);
    CollapseLast(b);
    StripKeeps(ca);
    StripKeeps(cb);
    var joined := ca + " " + cb;
    assert joined[0] == ca[0] && joined[|joined| - 1] == cb[|cb| - 1];
    StripKeeps(joined);
  }

  /** The cleaned parameter text. */
  function Clean(params: string): string
  {
    Strip(Collapse(params))
  }

  /** The signature text the script returns for a matched header. */
  function Rendered(h: Header): (r: string)
    ensures StartsWith(r, h.name + "(") && r[|r| - 1] == ')'
  {
    var head := h.name + "(";
    var r := head + Clean(h.params) + ")";
    assert r[..|head|] == head;
    r
  }

  lemma RenderedNamesTransform(h: Header)
    requires h.name == "transform" || h.name == "transform_scalars"
    ensures StartsWith(Rendered(h), "transform(") || StartsWith(Rendered(h), "transform_scalars(")
  {
    if h.name == "transform" {
      assert h.name + "(" == "transform(";
    } else {
      assert h.name + "(" == "transform_scalars(";
    }
  }

  /** `extract_function_signature(code)` */
  function ExtractFunctionSignature(code: string): (r: Option<string>)
    ensures r.None? <==> forall j: nat :: MatchAt(code, j).None?
    ensures r.Some? ==> StartsWith(r.value, "transform(") || StartsWith(r.value, "transform_scalars(")
    ensures r.Some? ==> r.value[|r.value| - 1] == ')'
  {
    var found := Search(code, 0);
    if found.None? then None
    else
      RenderedNamesTransform(found.value.1);
      Some(Rendered(found.value.1))
  }

  /** The signature comes from the leftmost header in the code. */
  lemma ExtractIsLeftmost(code: string, i: nat)
    requires MatchAt(code, i).Some?
    requires forall j: nat :: j < i ==> MatchAt(code, j).None?
    ensures ExtractFunctionSignature(code) == Some(Rendered(MatchAt(code, i).value))
  {
    var r := Search(code, 0);
    assert r.Some? && r.value.0 == i;
  }

  /** The characters left when all whitespace is removed. */
  function Squeezed(s: string): string
  {
    if s == [] then [] else (if IsSpace(s[0]) then [] else [s[0]]) + Squeezed(s[1..])
  }

  lemma {:induction false} SqueezedAppend(a: string, b: string)
    ensures Squeezed(a + b) == Squeezed(a) + Squeezed(b)
  {
    if a != [] {
      assert (a + b)[1..] == a[1..] + b;
      SqueezedAppend(a[1..], b);
    } else {
      assert a + b == b;
    }
  }

  lemma {:induction false} SqueezedAllSpaces(s: string)
    requires forall j :: 0 <= j < |s| ==> IsSpace(s[j])
    ensures Squeezed(s) == []
  {
    if s != [] {
      SqueezedAllSpaces(s[1..]);
    }
  }

  lemma {:induction false} SqueezedDropSpaces(s: string)
    ensures Squeezed(DropSpaces(s)) == Squeezed(s)
  {
    var d := DropSpaces(s);
    var front := s[..|s| - |d|];
    assert s == front + d;
    SqueezedAppend(front, d);
    SqueezedAllSpaces(front);
  }

  lemma {:induction false} SqueezedDropTrailingSpaces(s: string)
    ensures Squeezed(DropTrailingSpaces(s)) == Squeezed(s)
  {
    var d := DropTrailingSpaces(s);
    var back := s[|d|..];
    assert s == d + back;
    SqueezedAppend(d, back);
    SqueezedAllSpaces(back);
  }

  lemma {:induction false} SqueezedCollapse(s: string)
    ensures Squeezed(Collapse(s)) == Squeezed(s)
    decreases |s|
  {
    if s != [] {
      if IsSpace(s[0]) {
        var rest := DropSpaces(s);
        SqueezedCollapse(rest);
        SqueezedDropSpaces(s);
        assert (" " + Collapse(rest))[1..] == Collapse(rest);
      } else {
        SqueezedCollapse(s[1..]);
        assert ([s[0]] + Collapse(s[1..]))[1..] == Collapse(s[1..]);
      }
    }
  }

  /**
   * The cleaned parameter text has no whitespace at either end, no
   * whitespace other than single spaces, and exactly the non-whitespace
   * characters of the raw text, in order.
   */
  lemma CleanShape(params: string)
    ensures var c := Clean(params);
      && (c == [] || (!IsSpace(c[0]) && !IsSpace(c[|c| - 1])))
      && (forall j :: 0 <= j < |c| && IsSpace(c[j]) ==> c[j] == ' ')
      && (forall j :: 0 <= j < |c| - 1 ==> !(c[j] == ' ' && c[j + 1] == ' '))
      && Squeezed(c) == Squeezed(params)
  {
    var col := Collapse(params);
    StripEnds(col);
    var off := StripSlice(col);
    var c := Strip(col);
    forall j | 0 <= j < |c| - 1
      ensures !(c[j] == ' ' && c[j + 1] == ' ')
    {
      assert c[j] == col[off + j] && c[j + 1] == col[off + j + 1];
    }
    SqueezedStrip(params, col);
  }

  /** `strip()` leaves no whitespace at either end. */
  lemma StripEnds(s: string)
    ensures var c := Strip(s); c == [] || (!IsSpace(c[0]) && !IsSpace(c[|c| - 1]))
  {
    var d := DropSpaces(s);
    var c := DropTrailingSpaces(d);
    if c != [] {
      assert c[0] == d[0];
    }
  }

  /** `strip()` returns a slice of its argument. */
  lemma StripSlice(s: string) returns (off: nat)
    ensures off + |Strip(s)| <= |s|
    ensures forall j :: 0 <= j < |Strip(s)| ==> Strip(s)[j] == s[off + j]
  {
    var d := DropSpaces(s);
    off := |s| - |d|;
  }

  lemma SqueezedStrip(params: string, col: string)
    requires col == Collapse(params)
    ensures Squeezed(Clean(params)) == Squeezed(params)
  {
    SqueezedCollapse(params);
    SqueezedDropSpaces(col);
    SqueezedDropTrailingSpaces(DropSpaces(col));
  }
}
