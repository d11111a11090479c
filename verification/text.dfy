/**
 * The Python string operations the documentation generator uses:
 * `sep.join`, `startswith`, `in` on strings, `lower()`, `replace()` and the
 * whitespace class of `str.isspace()` / `\s`.
 */
module Text {

  /** Concatenation is associative; stated generically so that it is cheap to use on lists of strings. */
  lemma AppendAssoc<T>(a: seq<T>, b: seq<T>, c: seq<T>)
    ensures a + b + c == a + (b + c)
  {
  }

  /** `sep.join(parts)` */
  function Join(sep: string, parts: seq<string>): string
  {
    if |parts| == 0 then ""
    else if |parts| == 1 then parts[0]
    else parts[0] + sep + Join(sep, parts[1..])
  }

  /** `'\n'.join(lines)` */
  function Lines(lines: seq<string>): string
  {
    Join("\n", lines)
  }

  predicate StartsWith(s: string, prefix: string)
  {
    |prefix| <= |s| && s[..|prefix|] == prefix
  }

  /** `sub` occurs in `s` starting at position `i`. */
  predicate OccursAt(s: string, sub: string, i: int)
  {
    0 <= i && i + |sub| <= |s| && s[i..i + |sub|] == sub
  }

  lemma PrefixOfAppend(a: string, b: string)
    ensures StartsWith(a + b, a)
  {
    assert (a + b)[..|a|] == a;
  }

  lemma StartsWithTrans(s: string, t: string, u: string)
    requires StartsWith(s, t) && StartsWith(t, u)
    ensures StartsWith(s, u)
  {
    assert s[..|u|] == t[..|t|][..|u|];
  }

  /** `sub in s` */
  predicate Contains(s: string, sub: string)
    decreases |s|
  {
    StartsWith(s, sub) || (s != [] && Contains(s[1..], sub))
  }

  /** Joining at least two lines puts the first one, then a newline, in front. */
  lemma LinesStart(lines: seq<string>)
    requires |lines| >= 2
    ensures StartsWith(Lines(lines), lines[0] + "\n")
  {
    assert Lines(lines) == lines[0] + "\n" + Lines(lines[1..]);
    assert Lines(lines)[..|lines[0] + "\n"|] == lines[0] + "\n";
  }

  /** Joining at least two lines whose last one is empty gives text that ends in a newline. */
  lemma {:induction false} LinesEndWithNewline(lines: seq<string>)
    requires |lines| >= 2 && lines[|lines| - 1] == ""
    ensures |Lines(lines)| > 0 && Lines(lines)[|Lines(lines)| - 1] == '\n'
  {
    if |lines| == 2 {
      assert lines[1..] == [""];
      assert Join("\n", lines[1..]) == "";
      assert Lines(lines) == lines[0] + "\n" + "";
    } else {
      LinesEndWithNewline(lines[1..]);
      assert Lines(lines) == lines[0] + "\n" + Lines(lines[1..]);
    }
  }

  predicate EndsWith(s: string, suffix: string)
  {
    |suffix| <= |s| && s[|s| - |suffix|..] == suffix
  }

  /** The joined text ends with a newline and the join of any proper tail of the lines. */
  lemma {:induction false} LinesTail(lines: seq<string>, k: nat)
    requires 0 < k < |lines|
    ensures EndsWith(Lines(lines), "\n" + Lines(lines[k..]))
    decreases k
  {
    var whole := Lines(lines);
    assert whole == lines[0] + "\n" + Lines(lines[1..]);
    if k > 1 {
      LinesTail(lines[1..], k - 1);
      assert lines[1..][k - 1..] == lines[k..];
      var suffix := "\n" + Lines(lines[k..]);
      assert whole[|whole| - |suffix|..] == Lines(lines[1..])[|Lines(lines[1..])| - |suffix|..];
    }
  }

  /** Lines closing with `last` and an empty line end with `last` on a line of its own. */
  lemma LinesEndWithLine(lines: seq<string>, last: string)
    requires |lines| >= 3 && lines[|lines| - 2] == last && lines[|lines| - 1] == ""
    ensures EndsWith(Lines(lines), "\n" + last + "\n")
  {
    LinesTail(lines, |lines| - 2);
    var tail := lines[|lines| - 2..];
    assert tail == [last, ""];
    assert tail[1..] == [""];
    assert Lines(tail) == last + "\n" + Lines([""]);
  }

  /** Text that starts with `prefix` contains it, and so does any text that ends with such text. */
  lemma {:induction false} ContainsSuffix(pre: string, s: string, sub: string)
    requires Contains(s, sub)
    ensures Contains(pre + s, sub)
    decreases |pre|
  {
    if pre != [] {
      assert (pre + s)[1..] == pre[1..] + s;
      ContainsSuffix(pre[1..], s, sub);
    } else {
      assert pre + s == s;
    }
  }

  /** Contains(s, sub) means sub occurs at some position. */
  lemma {:induction false} ContainsAt(s: string, sub: string)
    requires Contains(s, sub)
    ensures exists i :: OccursAt(s, sub, i)
    decreases |s|
  {
    if !StartsWith(s, sub) {
      ContainsAt(s[1..], sub);
      var i :| OccursAt(s[1..], sub, i);
      assert s[i + 1..i + 1 + |sub|] == s[1..][i..i + |sub|];
      assert OccursAt(s, sub, i + 1);
    } else {
      assert OccursAt(s, sub, 0);
    }
  }

  /** An occurrence at position i means Contains. */
  lemma {:induction false} OccurrenceContains(s: string, sub: string, i: nat)
    requires OccursAt(s, sub, i)
    ensures Contains(s, sub)
    decreases i
  {
    if i > 0 {
      assert s[1..][i - 1..i - 1 + |sub|] == sub;
      OccurrenceContains(s[1..], sub, i - 1);
    }
  }

  /** `sub` occurs right after `pre` in `pre + sub + post`. */
  lemma OccursAfter(pre: string, sub: string, post: string)
    ensures OccursAt(pre + sub + post, sub, |pre|)
  {
    assert (pre + sub + post)[|pre|..|pre| + |sub|] == sub;
  }

  /** Text that contains `prefix + sub` contains `sub`. */
  lemma ContainsSuffixOf(s: string, prefix: string, sub: string)
    requires Contains(s, prefix + sub)
    ensures Contains(s, sub)
  {
    ContainsAt(s, prefix + sub);
    var i :| OccursAt(s, prefix + sub, i);
    assert s[i + |prefix|..i + |prefix| + |sub|] == (prefix + sub)[|prefix|..];
    assert OccursAt(s, sub, i + |prefix|);
    OccurrenceContains(s, sub, i + |prefix|);
  }

  /** An occurrence inside a part is an occurrence in the whole. */
  lemma ContainsInfix(pre: string, mid: string, post: string, sub: string)
    requires Contains(mid, sub)
    ensures Contains(pre + mid + post, sub)
  {
    ContainsAt(mid, sub);
    var i :| OccursAt(mid, sub, i);
    var whole := pre + mid + post;
    assert whole[|pre| + i..|pre| + i + |sub|] == mid[i..i + |sub|];
    assert OccursAt(whole, sub, |pre| + i);
    OccurrenceContains(whole, sub, |pre| + i);
  }

  /** ASCII `lower()` of one character. */
  function LowerChar(c: char): char
  {
    if 'A' <= c <= 'Z' then (c as int + 32) as char else c
  }

  /** `s.lower()` (ASCII letters only). */
  function Lower(s: string): (r: string)
    ensures |r| == |s|
    ensures forall i :: 0 <= i < |s| ==> r[i] == LowerChar(s[i])
  {
    if s == [] then [] else [LowerChar(s[0])] + Lower(s[1..])
  }

  /**
   * `s.replace(pat, rep)`: every occurrence of `pat`, scanning left to right
   * without overlap, is replaced by `rep`.
   */
  function ReplaceAll(s: string, pat: string, rep: string): string
    requires |pat| > 0
    decreases |s|
  {
    if |s| < |pat| then s
    else if s[..|pat|] == pat then rep + ReplaceAll(s[|pat|..], pat, rep)
    else [s[0]] + ReplaceAll(s[1..], pat, rep)
  }

  /** Text without the pattern is left as it is. */
  lemma {:induction false} ReplaceAllAbsent(s: string, pat: string, rep: string)
    requires |pat| > 0 && !Contains(s, pat)
    ensures ReplaceAll(s, pat, rep) == s
    decreases |s|
  {
    if |s| >= |pat| {
      assert s[..|pat|] != pat;
      ReplaceAllAbsent(s[1..], pat, rep);
    }
  }

  /**
   * The first occurrence of the pattern is replaced, the text before it is
   * kept, and the scan goes on after it.
   */
  lemma {:induction false} ReplaceAllFirst(pre: string, pat: string, post: string, rep: string)
    requires |pat| > 0
    requires forall i :: 0 <= i < |pre| ==> !OccursAt(pre + pat + post, pat, i)
    ensures ReplaceAll(pre + pat + post, pat, rep) == pre + rep + ReplaceAll(post, pat, rep)
    decreases |pre|
  {
    var s := pre + pat + post;
    if pre == [] {
      assert s[..|pat|] == pat && s[|pat|..] == post;
    } else {
      assert !OccursAt(s, pat, 0);
      var s' := pre[1..] + pat + post;
      assert s[1..] == s';
      forall i | 0 <= i < |pre[1..]|
        ensures !OccursAt(s', pat, i)
      {
        assert s'[i..i + |pat|] == s[i + 1..i + 1 + |pat|];
        assert !OccursAt(s, pat, i + 1);
      }
      ReplaceAllFirst(pre[1..], pat, post, rep);
      assert ReplaceAll(s, pat, rep) == [s[0]] + ReplaceAll(s', pat, rep);
    }
  }

  /** When the pattern occurs, the replacement text occurs in the result. */
  lemma {:induction false} ReplaceAllInserts(s: string, pat: string, rep: string)
    requires |pat| > 0 && Contains(s, pat)
    ensures Contains(ReplaceAll(s, pat, rep), rep)
    decreases |s|
  {
    var r := ReplaceAll(s, pat, rep);
    ContainsAt(s, pat);
    if s[..|pat|] == pat {
      assert StartsWith(r, rep);
    } else {
      assert !StartsWith(s, pat);
      ReplaceAllInserts(s[1..], pat, rep);
      ContainsSuffix([s[0]], ReplaceAll(s[1..], pat, rep), rep);
    }
  }

  /** The characters Python's `str.isspace()` and the regular expression class `\s` accept. */
  predicate IsSpace(c: char)
  {
    || c == ' '
    || ('\t' <= c <= '\r')                  // \t \n \v \f \r
    || ('\U{1C}' <= c <= '\U{1F}')          // file, group, record and unit separators
    || c == '\U{85}' || c == '\U{A0}' || c == '\U{1680}'
    || ('\U{2000}' <= c <= '\U{200A}')
    || c == '\U{2028}' || c == '\U{2029}' || c == '\U{202F}' || c == '\U{205F}' || c == '\U{3000}'
  }

  /** Python's `<=` on strings: code-point lexicographic order. */
  predicate LexLe(a: string, b: string)
  {
    a == [] || (b != [] && (a[0] < b[0] || (a[0] == b[0] && LexLe(a[1..], b[1..]))))
  }

  lemma {:induction false} LexLeReflexive(a: string)
    ensures LexLe(a, a)
  {
    if a != [] {
      LexLeReflexive(a[1..]);
    }
  }

  lemma {:induction false} LexLeTotal(a: string, b: string)
    ensures LexLe(a, b) || LexLe(b, a)
  {
    if a != [] && b != [] && a[0] == b[0] {
      LexLeTotal(a[1..], b[1..]);
    }
  }

  lemma {:induction false} LexLeTrans(a: string, b: string, c: string)
    requires LexLe(a, b) && LexLe(b, c)
    ensures LexLe(a, c)
  {
    if a != [] && b != [] && c != [] && a[0] == b[0] && b[0] == c[0] {
      LexLeTrans(a[1..], b[1..], c[1..]);
    }
  }

  lemma {:induction false} LexLeAntisymmetric(a: string, b: string)
    requires LexLe(a, b) && LexLe(b, a)
    ensures a == b
  {
    if a != [] && b != [] {
      LexLeAntisymmetric(a[1..], b[1..]);
      assert a == [a[0]] + a[1..] && b == [b[0]] + b[1..];
    }
  }
}
